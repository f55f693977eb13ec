/**
 * Optional positional arguments of `cowboy` and `cattle`. Each function has a
 * fixed order of optional slots; going through the slots in that order, a slot
 * takes the argument at the front of the remaining arguments when that
 * argument has the slot's kind, and otherwise keeps its default. Kinds follow
 * underscore, so a function (an object to _.isObject) passed first lands in
 * the config slot.
 */
module Overloads {
  import opened Wrappers
  import opened JsValues

  datatype Slot = ConfigSlot | ArgvSlot | CommandSlot | CommandArgvSlot | CallbackSlot

  /** The kind test each slot applies to the front argument. */
  predicate Accepts(slot: Slot, v: Value)
  {
    match slot
    case ConfigSlot => IsObject(v) && !IsArray(v)
    case ArgvSlot => IsArray(v)
    case CommandSlot => IsString(v)
    case CommandArgvSlot => IsArray(v)
    case CallbackSlot => IsFunction(v)
  }

  /** `[config, argv, command, commandArgv, callback]` */
  const CowboySlots: seq<Slot> := [ConfigSlot, ArgvSlot, CommandSlot, CommandArgvSlot, CallbackSlot]
  /** `[config, argv, callback]` */
  const CattleSlots: seq<Slot> := [ConfigSlot, ArgvSlot, CallbackSlot]

  /** `methodArguments[0]`: undefined once the arguments run out. */
  function Front(args: seq<Value>): Value
  {
    if args == [] then Undefined else args[0]
  }

  /** One slot's turn: `x = methodArguments.shift()` when the front argument has the slot's kind. */
  function Take(slot: Slot, args: seq<Value>): (Option<Value>, seq<Value>)
  {
    if Accepts(slot, Front(args)) then (Some(args[0]), args[1..]) else (None, args)
  }

  /**
   * Goes through `slots` in order, each taking its turn. Answers what each
   * slot received (None: left at its default) and the arguments no slot took.
   */
  function Fill(slots: seq<Slot>, args: seq<Value>): (r: (seq<Option<Value>>, seq<Value>))
    ensures |r.0| == |slots|
    decreases |slots|
  {
    if slots == [] then ([], args)
    else
      var (taken, left) := Take(slots[0], args);
      var (filled, rest) := Fill(slots[1..], left);
      ([taken] + filled, rest)
  }

  /** The supplied values among `vals`, in slot order: the positional call that supplies exactly them. */
  function Supplied(vals: seq<Option<Value>>): seq<Value>
    decreases |vals|
  {
    if vals == [] then []
    else (if vals[0].Some? then [vals[0].value] else []) + Supplied(vals[1..])
  }

  /**
   * What the filling consumes is a prefix of the arguments: the supplied
   * values in slot order, each argument taken by at most one slot, and each
   * slot holding a value of its own kind.
   */
  lemma {:induction false} FillTakesPrefix(slots: seq<Slot>, args: seq<Value>)
    ensures args == Supplied(Fill(slots, args).0) + Fill(slots, args).1
    ensures |Supplied(Fill(slots, args).0)| <= |slots|
    ensures forall i :: 0 <= i < |slots| && Fill(slots, args).0[i].Some? ==>
      Accepts(slots[i], Fill(slots, args).0[i].value)
    decreases |slots|
  {
    if slots != [] {
      var (filled, rest) := Fill(slots, args);
      if Accepts(slots[0], Front(args)) {
        FillTakesPrefix(slots[1..], args[1..]);
        assert filled == [Some(args[0])] + Fill(slots[1..], args[1..]).0;
        assert Supplied(filled) == [args[0]] + Supplied(filled[1..]);
      } else {
        FillTakesPrefix(slots[1..], args);
        assert filled == [None] + Fill(slots[1..], args).0;
        assert Supplied(filled) == Supplied(filled[1..]);
      }
    }
  }

  /**
   * When a call supplying `vals` (followed by further arguments `rest`) is
   * read back as exactly `vals`: every supplied value has its slot's kind,
   * and no skipped slot would grab the argument that follows it.
   */
  predicate Unambiguous(slots: seq<Slot>, vals: seq<Option<Value>>, rest: seq<Value>)
    requires |vals| == |slots|
    decreases |slots|
  {
    slots == [] ||
    ((if vals[0].Some? then Accepts(slots[0], vals[0].value)
      else !Accepts(slots[0], Front(Supplied(vals[1..]) + rest)))
     && Unambiguous(slots[1..], vals[1..], rest))
  }

  /** Resolution inverts positional calling exactly when the call is unambiguous, in both directions. */
  lemma {:induction false} FillRoundTrip(slots: seq<Slot>, vals: seq<Option<Value>>, rest: seq<Value>)
    requires |vals| == |slots|
    ensures Fill(slots, Supplied(vals) + rest) == (vals, rest) <==> Unambiguous(slots, vals, rest)
    decreases |slots|
  {
    if slots == [] {
      assert Supplied(vals) + rest == rest;
    } else {
      var args := Supplied(vals) + rest;
      if vals[0].Some? {
        assert args == [vals[0].value] + (Supplied(vals[1..]) + rest);
        assert args[1..] == Supplied(vals[1..]) + rest;
        FillRoundTrip(slots[1..], vals[1..], rest);
        if Accepts(slots[0], vals[0].value) {
          assert vals == [vals[0]] + vals[1..];
        }
      } else {
        assert args == Supplied(vals[1..]) + rest;
        FillRoundTrip(slots[1..], vals[1..], rest);
        assert vals == [None] + vals[1..];
      }
    }
  }

  /** The resolved arguments of `cowboy`; None in `config` stands for the default `{}`, in `callback` for the default no-op. */
  datatype CowboyParams = CowboyParams(
    config: Option<Value>,
    argv: seq<string>,
    command: Option<string>,
    commandArgv: seq<string>,
    callback: Option<nat>)

  /** The resolved arguments of `cattle`, with the same defaults. */
  datatype CattleParams = CattleParams(config: Option<Value>, argv: seq<string>, callback: Option<nat>)

  function Items(o: Option<Value>): seq<string>
  {
    match o
    case Some(Arr(items)) => items
    case _ => []
  }

  function Text(o: Option<Value>): Option<string>
  {
    match o
    case Some(Str(s)) => Some(s)
    case _ => None
  }

  function FnId(o: Option<Value>): Option<nat>
  {
    match o
    case Some(Fn(id)) => Some(id)
    case _ => None
  }

  /** The arguments of a `cowboy(...)` call, resolved slot by slot; also answers the arguments no slot took. */
  function ResolveCowboy(args: seq<Value>): (r: (CowboyParams, seq<Value>))
    ensures r.0.config.Some? <==> IsObject(Front(args)) && !IsArray(Front(args))
    ensures r.0.config.Some? ==> r.0.config.value == args[0]
    ensures r.0.argv != [] ==> Arr(r.0.argv) in args
    ensures r.0.command.Some? ==> Str(r.0.command.value) in args
    ensures r.0.commandArgv != [] ==> Arr(r.0.commandArgv) in args
    ensures r.0.callback.Some? ==> Fn(r.0.callback.value) in args
  {
    var (config, a1) := Take(ConfigSlot, args);
    var (argv, a2) := Take(ArgvSlot, a1);
    var (command, a3) := Take(CommandSlot, a2);
    var (commandArgv, a4) := Take(CommandArgvSlot, a3);
    var (callback, rest) := Take(CallbackSlot, a4);
    assert forall x :: x in a4 ==> x in args;
    (CowboyParams(config, Items(argv), Text(command), Items(commandArgv), FnId(callback)), rest)
  }

  /** The arguments of a `cattle(...)` call, resolved slot by slot; also answers the arguments no slot took. */
  function ResolveCattle(args: seq<Value>): (r: (CattleParams, seq<Value>))
    ensures r.0.config.Some? <==> IsObject(Front(args)) && !IsArray(Front(args))
    ensures r.0.config.Some? ==> r.0.config.value == args[0]
    ensures r.0.argv != [] ==> Arr(r.0.argv) in args
    ensures r.0.callback.Some? ==> Fn(r.0.callback.value) in args
  {
    var (config, a1) := Take(ConfigSlot, args);
    var (argv, a2) := Take(ArgvSlot, a1);
    var (callback, rest) := Take(CallbackSlot, a2);
    assert forall x :: x in a2 ==> x in args;
    (CattleParams(config, Items(argv), FnId(callback)), rest)
  }

  /** Cowboy's resolution is the slot filling over `[config, argv, command, commandArgv, callback]`. */
  lemma ResolveCowboyFills(args: seq<Value>)
    ensures var (vals, rest) := Fill(CowboySlots, args);
      ResolveCowboy(args) == (CowboyParams(vals[0], Items(vals[1]), Text(vals[2]), Items(vals[3]), FnId(vals[4])), rest)
  {
    var s := CowboySlots;
    assert s[1..][1..][1..][1..][1..] == [];
  }

  /** Cattle's resolution is the slot filling over `[config, argv, callback]`. */
  lemma ResolveCattleFills(args: seq<Value>)
    ensures var (vals, rest) := Fill(CattleSlots, args);
      ResolveCattle(args) == (CattleParams(vals[0], Items(vals[1]), FnId(vals[2])), rest)
  {
    var s := CattleSlots;
    assert s[1..][1..][1..] == [];
  }

  /**
   * `cowboy` takes at most one argument per slot, from the front: what is
   * left over is a suffix of the call's arguments, at most five shorter.
   */
  lemma CowboyConsumesPrefix(args: seq<Value>)
    ensures var rest := ResolveCowboy(args).1;
      |args| - 5 <= |rest| <= |args| && rest == args[|args| - |rest|..]
  {
    ResolveCowboyFills(args);
    FillTakesPrefix(CowboySlots, args);
    var (vals, rest) := Fill(CowboySlots, args);
    assert args == Supplied(vals) + rest;
    assert args[|Supplied(vals)|..] == rest;
  }

  /** `cattle` likewise takes at most one argument per slot, from the front. */
  lemma CattleConsumesPrefix(args: seq<Value>)
    ensures var rest := ResolveCattle(args).1;
      |args| - 3 <= |rest| <= |args| && rest == args[|args| - |rest|..]
  {
    ResolveCattleFills(args);
    FillTakesPrefix(CattleSlots, args);
    var (vals, rest) := Fill(CattleSlots, args);
    assert args == Supplied(vals) + rest;
    assert args[|Supplied(vals)|..] == rest;
  }

  /** A `cowboy` call that supplies some of its optional arguments, unambiguously, is read back as exactly those. */
  lemma CowboyReadsBackUnambiguousCalls(vals: seq<Option<Value>>, rest: seq<Value>)
    requires |vals| == |CowboySlots| && Unambiguous(CowboySlots, vals, rest)
    ensures ResolveCowboy(Supplied(vals) + rest) ==
      (CowboyParams(vals[0], Items(vals[1]), Text(vals[2]), Items(vals[3]), FnId(vals[4])), rest)
  {
    FillRoundTrip(CowboySlots, vals, rest);
    ResolveCowboyFills(Supplied(vals) + rest);
  }

  /** A `cattle` call that supplies some of its optional arguments, unambiguously, is read back as exactly those. */
  lemma CattleReadsBackUnambiguousCalls(vals: seq<Option<Value>>, rest: seq<Value>)
    requires |vals| == |CattleSlots| && Unambiguous(CattleSlots, vals, rest)
    ensures ResolveCattle(Supplied(vals) + rest) == (CattleParams(vals[0], Items(vals[1]), FnId(vals[2])), rest)
  {
    FillRoundTrip(CattleSlots, vals, rest);
    ResolveCattleFills(Supplied(vals) + rest);
  }

  /**
   * A function passed first is an object to underscore, so it fills the
   * config slot and the callback stays the no-op: `cattle(function() {...})`
   * never calls that function back.
   */
  lemma FunctionFirstIsConfig(id: nat, more: seq<Value>)
    ensures ResolveCowboy([Fn(id)] + more).0.config == Some(Fn(id))
    ensures ResolveCattle([Fn(id)] + more).0.config == Some(Fn(id))
    ensures ResolveCattle([Fn(id)]) == (CattleParams(Some(Fn(id)), [], None), [])
    ensures ResolveCowboy([Fn(id)]) == (CowboyParams(Some(Fn(id)), [], None, [], None), [])
  {
  }

  /** The empty string is a string to underscore, so it is consumed as the command. */
  lemma EmptyStringIsConsumedAsCommand(more: seq<Value>)
    ensures ResolveCowboy([Str("")] + more).0.command == Some("")
  {
  }

  /** With no arguments every slot keeps its default: `{}`, `[]`, null, `[]` and the no-op. */
  lemma DefaultsWhenOmitted()
    ensures ResolveCowboy([]) == (CowboyParams(None, [], None, [], None), [])
    ensures ResolveCattle([]) == (CattleParams(None, [], None), [])
  {
  }

  /** The calls shown in the documentation comment of `cowboy`. */
  lemma CowboyDocumentedCalls(cfg: nat, cb: nat)
    ensures ResolveCowboy([Str("ping")]) == (CowboyParams(None, [], Some("ping"), [], None), [])
    ensures ResolveCowboy([Arr(["--help"]), Fn(cb)]) == (CowboyParams(None, ["--help"], None, [], Some(cb)), [])
    ensures ResolveCowboy([Arr(["--help"]), Str("install"), Arr(["cowboy-contrib-apt@2.1.0"])])
      == (CowboyParams(None, ["--help"], Some("install"), ["cowboy-contrib-apt@2.1.0"], None), [])
    ensures ResolveCowboy([Obj(cfg), Str("ping")]) == (CowboyParams(Some(Obj(cfg)), [], Some("ping"), [], None), [])
  {
    assert [Fn(cb)][1..] == [];
  }

  /** The argument sniffing of `cowboy`, shifting from the front of `methodArguments`. */
  method CowboyArguments(arguments: seq<Value>) returns (p: CowboyParams, rest: seq<Value>)
    ensures (p, rest) == ResolveCowboy(arguments)
  {
    var methodArguments := arguments;
    var config: Option<Value> := None;
    var argv: seq<string> := [];
    var command: Option<string> := None;
    var commandArgv: seq<string> := [];
    var callback: Option<nat> := None;

    // Resolve config
    if IsObject(Front(methodArguments)) && !IsArray(Front(methodArguments)) {
      config := Some(methodArguments[0]);
      methodArguments := methodArguments[1..];
    }
    // Resolve argv
    if IsArray(Front(methodArguments)) {
      argv := methodArguments[0].items;
      methodArguments := methodArguments[1..];
    }
    // Resolve command
    if IsString(Front(methodArguments)) {
      command := Some(methodArguments[0].s);
      methodArguments := methodArguments[1..];
    }
    // Resolve commandArgv
    if IsArray(Front(methodArguments)) {
      commandArgv := methodArguments[0].items;
      methodArguments := methodArguments[1..];
    }
    // Resolve callback
    if IsFunction(Front(methodArguments)) {
      callback := Some(methodArguments[0].id);
      methodArguments := methodArguments[1..];
    }

    p := CowboyParams(config, argv, command, commandArgv, callback);
    rest := methodArguments;
  }

  /** The argument sniffing of `cattle`, shifting from the front of `methodArguments`. */
  method CattleArguments(arguments: seq<Value>) returns (p: CattleParams, rest: seq<Value>)
    ensures (p, rest) == ResolveCattle(arguments)
  {
    var methodArguments := arguments;
    var config: Option<Value> := None;
    var argv: seq<string> := [];
    var callback: Option<nat> := None;

    // Resolve config
    if IsObject(Front(methodArguments)) && !IsArray(Front(methodArguments)) {
      config := Some(methodArguments[0]);
      methodArguments := methodArguments[1..];
    }
    // Resolve argv
    if IsArray(Front(methodArguments)) {
      argv := methodArguments[0].items;
      methodArguments := methodArguments[1..];
    }
    // Resolve callback
    if IsFunction(Front(methodArguments)) {
      callback := Some(methodArguments[0].id);
      methodArguments := methodArguments[1..];
    }

    p := CattleParams(config, argv, callback);
    rest := methodArguments;
  }
}
