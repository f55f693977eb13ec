/**
 * The two process-wide binary paths and their get-or-set accessors
 * (`cattlePath(p)` and `cowboyPath(p)`): a truthy argument replaces the stored
 * path, a falsy one (including no argument at all) leaves it alone, and
 * either way the call answers the path now stored.
 */
module BinaryPaths {
  import opened Wrappers
  import opened JsValues

  const InitialCattlePath: Value := Str("cattle")
  const InitialCowboyPath: Value := Str("cowboy")

  /** The path stored after one accessor call with argument `p`. */
  function Accept(stored: Value, p: Value): (r: Value)
    ensures r == p || r == stored
    ensures Truthy(stored) ==> Truthy(r)
    ensures Truthy(r) ==> Truthy(stored) || r == p
  {
    if Truthy(p) then p else stored
  }

  /** The path stored after a series of accessor calls, made in order from `init`. */
  function StoredAfter(init: Value, calls: seq<Value>): (r: Value)
    ensures r == init || (r in calls && Truthy(r))
    decreases |calls|
  {
    if calls == [] then init else StoredAfter(Accept(init, calls[0]), calls[1..])
  }

  /** The last truthy argument among `calls`, if any: the reference definition of "last set wins". */
  function LastTruthy(calls: seq<Value>): Option<Value>
    decreases |calls|
  {
    if calls == [] then None
    else if Truthy(calls[|calls| - 1]) then Some(calls[|calls| - 1])
    else LastTruthy(calls[..|calls| - 1])
  }

  /** Peeling the first call off: the last truthy argument of `[c] + t` is t's, or c when t has none. */
  lemma {:induction false} LastTruthyCons(c: Value, t: seq<Value>)
    ensures LastTruthy([c] + t) ==
      if LastTruthy(t).Some? then LastTruthy(t)
      else if Truthy(c) then Some(c)
      else None
    decreases |t|
  {
    if t == [] {
      assert [c] + t == [c];
    } else {
      var n := |t|;
      assert ([c] + t)[..n] == [c] + t[..n - 1];
      assert ([c] + t)[n] == t[n - 1];
      LastTruthyCons(c, t[..n - 1]);
    }
  }

  /** Whatever calls were made, the stored path is the last truthy argument, or the initial path when none was truthy. */
  lemma {:induction false} StoredIsLastTruthy(init: Value, calls: seq<Value>)
    ensures StoredAfter(init, calls) ==
      (match LastTruthy(calls) case Some(p) => p case None => init)
    decreases |calls|
  {
    if calls != [] {
      StoredIsLastTruthy(Accept(init, calls[0]), calls[1..]);
      assert calls == [calls[0]] + calls[1..];
      LastTruthyCons(calls[0], calls[1..]);
    }
  }

  /** A stored path that starts truthy (both initial paths do) never becomes falsy. */
  lemma {:induction false} StoredStaysTruthy(init: Value, calls: seq<Value>)
    requires Truthy(init)
    ensures Truthy(StoredAfter(init, calls))
    decreases |calls|
  {
    if calls != [] {
      StoredStaysTruthy(Accept(init, calls[0]), calls[1..]);
    }
  }

  /** Repeating a call changes nothing further: the accessor is idempotent. */
  lemma AcceptIdempotent(stored: Value, p: Value)
    ensures Accept(Accept(stored, p), p) == Accept(stored, p)
  {
  }

  /** The module-level `_cattlePath` and `_cowboyPath` cells. */
  class Paths {
    var cattle: Value
    var cowboy: Value

    /** Module load: the bare binary names, to be found on the executable search path. */
    constructor ()
      ensures cattle == InitialCattlePath && cowboy == InitialCowboyPath
    {
      cattle := InitialCattlePath;
      cowboy := InitialCowboyPath;
    }

    /** `cattlePath(p)`: set when `p` is truthy, then answer the stored cattle path. */
    method CattlePath(p: Value) returns (r: Value)
      modifies this`cattle
      ensures cattle == Accept(old(cattle), p)
      ensures r == cattle
      ensures cowboy == old(cowboy)
    {
      if Truthy(p) {
        cattle := p;
      }
      r := cattle;
    }

    /** `cowboyPath(p)`: set when `p` is truthy, then answer the stored cowboy path. */
    method CowboyPath(p: Value) returns (r: Value)
      modifies this`cowboy
      ensures cowboy == Accept(old(cowboy), p)
      ensures r == cowboy
      ensures cattle == old(cattle)
    {
      if Truthy(p) {
        cowboy := p;
      }
      r := cowboy;
    }
  }
}
