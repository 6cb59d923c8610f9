/**
 * The user launch arguments a device keeps for the app
 * (`AppLaunchArgs` in detox/index.d.ts): `modify` merges a modifier object
 * into the stored arguments, clearing every key the modifier sets to `null`
 * or `undefined`; `reset` empties them; `get` hands out a copy. A launch
 * passes the stored arguments overridden key by key by the launch's own.
 */
module LaunchArgs {
  import opened Common

  /** A launch-argument value: a string or a number. */
  datatype Value = Str(s: string) | Num(n: int)

  /** A modifier property: `None` stands for `null` or `undefined`. */
  type Modifier = map<string, Option<Value>>

  /** The arguments after `modify(modifier)`, as a function of the arguments before. */
  function ApplyModifier(args: map<string, Value>, modifier: Modifier): (r: map<string, Value>)
    ensures forall k :: k in modifier && modifier[k].Some? ==> k in r && r[k] == modifier[k].value
    ensures forall k :: k in modifier && modifier[k].None? ==> k !in r
    ensures forall k :: k !in modifier ==> (k in r <==> k in args)
    ensures forall k :: k !in modifier && k in args ==> r[k] == args[k]
  {
    map k | k in args.Keys + modifier.Keys && !(k in modifier && modifier[k].None?) ::
      if k in modifier then modifier[k].value else args[k]
  }

  /** The part of a modifier whose keys are in `keys`. */
  function Restrict(modifier: Modifier, keys: set<string>): (r: Modifier)
    ensures r.Keys == modifier.Keys * keys
    ensures forall k :: k in r ==> r[k] == modifier[k]
  {
    map k | k in modifier.Keys * keys :: modifier[k]
  }

  /** One modifier property applied: cleared when `null`, set otherwise. */
  function Step(args: map<string, Value>, k: string, value: Option<Value>): map<string, Value> {
    match value
    case None => args - {k}
    case Some(v) => args[k := v]
  }

  /** A modifier restricted to all its keys is itself. */
  lemma RestrictAll(modifier: Modifier, keys: set<string>)
    requires modifier.Keys <= keys
    ensures Restrict(modifier, keys) == modifier
  {
  }

  /** Applying one more modifier key on top of a partial application. */
  lemma {:induction false} ApplyOneMore(args: map<string, Value>, modifier: Modifier, done: set<string>, k: string)
    requires k in modifier && k !in done
    ensures ApplyModifier(args, Restrict(modifier, done + {k}))
         == Step(ApplyModifier(args, Restrict(modifier, done)), k, modifier[k])
  {
    var before := ApplyModifier(args, Restrict(modifier, done));
    var after := ApplyModifier(args, Restrict(modifier, done + {k}));
    var step := Step(before, k, modifier[k]);
    forall key
      ensures key in after <==> key in step
      ensures key in after ==> after[key] == step[key]
    {
      if key != k && key in modifier && key in done {
        assert key in Restrict(modifier, done) && key in Restrict(modifier, done + {k});
      }
    }
    assert after == step;
  }

  /** Applying a modifier twice is applying it once. */
  lemma {:induction false} ModifyIdempotent(args: map<string, Value>, modifier: Modifier)
    ensures ApplyModifier(ApplyModifier(args, modifier), modifier) == ApplyModifier(args, modifier)
  {
    var once := ApplyModifier(args, modifier);
    var twice := ApplyModifier(once, modifier);
    forall key
      ensures key in twice <==> key in once
      ensures key in twice ==> twice[key] == once[key]
    {
    }
    assert twice == once;
  }

  /** An empty modifier changes nothing. */
  lemma {:induction false} EmptyModifierKeeps(args: map<string, Value>)
    ensures ApplyModifier(args, map[]) == args
  {
    var r := ApplyModifier(args, map[]);
    assert forall key :: key in r <==> key in args;
  }

  /** After a reset, a modifier leaves exactly its concrete values. */
  lemma {:induction false} ModifyAfterReset(modifier: Modifier)
    ensures var r := ApplyModifier(map[], modifier);
            forall k :: k in r <==> k in modifier && modifier[k].Some?
  {
  }

  /** The arguments a launch passes: the stored ones, overridden key by key by the launch's own. */
  function LaunchArguments(stored: map<string, Value>, perLaunch: map<string, Value>): (r: map<string, Value>)
    ensures r.Keys == stored.Keys + perLaunch.Keys
    ensures forall k :: k in perLaunch ==> r[k] == perLaunch[k]
    ensures forall k :: k in stored && k !in perLaunch ==> r[k] == stored[k]
  {
    stored + perLaunch
  }

  /** What `device.appLaunchArgs()` returns: the stored arguments of one device. */
  class AppLaunchArgs {
    var args: map<string, Value>

    constructor (initial: map<string, Value>)
      ensures args == initial
    {
      args := initial;
    }

    /** `modify(modifier)`: one modifier key at a time, in no particular order. */
    method Modify(modifier: Modifier)
      modifies this`args
      ensures args == ApplyModifier(old(args), modifier)
    {
      var pending := modifier.Keys;
      var current := args;
      ghost var before := args;
      ghost var done: set<string> := {};
      EmptyModifierKeeps(args);
      assert Restrict(modifier, done) == map[];
      while pending != {}
        invariant pending <= modifier.Keys && done == modifier.Keys - pending
        invariant current == ApplyModifier(before, Restrict(modifier, done))
        decreases pending
      {
        var k :| k in pending;
        ApplyOneMore(before, modifier, done, k);
        current := Step(current, k, modifier[k]);
        pending := pending - {k};
        done := done + {k};
      }
      RestrictAll(modifier, done);
      args := current;
    }

    /** `reset()`: back to no arguments. */
    method Reset()
      modifies this`args
      ensures args == map[]
    {
      args := map[];
    }

    /** `get()`: a copy of the arguments; changing it later does not reach the device. */
    method Get() returns (copy: map<string, Value>)
      ensures copy == args
    {
      copy := args;
    }
  }

  /** The `modify` example: the port is overridden, the credentials cleared, the token added. */
  method ModifyExample() returns (after: map<string, Value>)
    ensures after == map["mockServerPort" := Num(4321), "mockServerToken" := Str("abcdef")]
  {
    var launchArgs := new AppLaunchArgs(map["mockServerPort" := Num(1234),
                                            "mockServerCredentials" := Str("user@test.com:12345678")]);
    launchArgs.Modify(map["mockServerPort" := Some(Num(4321)), "mockServerCredentials" := None,
                          "mockServerToken" := Some(Str("abcdef"))]);
    after := launchArgs.Get();
    assert after.Keys == {"mockServerPort", "mockServerToken"};
  }

  /** The `appLaunchArgs` example: the launch's own token beats the stored one for that launch only. */
  method LaunchExample() returns (launched: map<string, Value>, kept: map<string, Value>)
    ensures launched == map["mockServerPort" := Num(4321), "mockServerToken" := Str("uvwxyz")]
    ensures kept == map["mockServerPort" := Num(4321), "mockServerToken" := Str("abcdef")]
  {
    var launchArgs := new AppLaunchArgs(map["mockServerPort" := Num(1234)]);
    launchArgs.Modify(map["mockServerPort" := Some(Num(4321)), "mockServerToken" := Some(Str("abcdef"))]);
    kept := launchArgs.Get();
    assert kept.Keys == {"mockServerPort", "mockServerToken"};
    launched := LaunchArguments(kept, map["mockServerToken" := Str("uvwxyz")]);
    assert launched.Keys == {"mockServerPort", "mockServerToken"};
  }

  /** A copy taken by `get` survives a later `reset` and `modify` of the device's arguments. */
  method GetIsSnapshot() returns (copy: map<string, Value>, current: map<string, Value>)
    ensures copy == map["arg" := Num(1)] && current == map[]
  {
    var launchArgs := new AppLaunchArgs(map["arg" := Num(1)]);
    copy := launchArgs.Get();
    launchArgs.Reset();
    launchArgs.Modify(map["arg" := None]);
    current := launchArgs.Get();
    assert current.Keys == {};
  }
}
