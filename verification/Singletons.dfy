/**
 The two objects shared through a static weak pointer: the wrapper of the default loop and the memo that
 resets the terminal mode.
 */
module Singletons {
  import opened Wrappers

  /** How often a sequence of numbers of holders falls to zero. */
  function Zeros(history: seq<nat>): nat {
    if |history| < 2 then 0
    else
      var n := |history| - 1;
      Zeros(history[..n]) + if history[n] == 0 && history[n - 1] > 0 then 1 else 0
  }

  lemma ZerosNext(history: seq<nat>, holders: nat)
    requires history != []
    ensures Zeros(history + [holders]) ==
            Zeros(history) + if holders == 0 && history[|history| - 1] > 0 then 1 else 0
  {
    assert (history + [holders])[..|history|] == history;
  }

  /**
   A weak pointer, the object each strong reference points at, the number of objects made, the
   objects destroyed in order, and the number of strong references after each operation.

   All strong references point at one object, the newest; every older object was destroyed, once,
   and destructor runs are exactly the returns to zero references.
   */
  ghost predicate OneLive(weak: Option<nat>, holders: seq<nat>, made: nat, destroyed: seq<nat>, history: seq<nat>) {
    && (forall k :: 0 <= k < |holders| ==> holders[k] + 1 == made && weak == Some(holders[k]))
    && (weak.Some? ==> weak.value < made)
    && made == |destroyed| + (if holders == [] then 0 else 1)
    && (forall k :: 0 <= k < |destroyed| ==> destroyed[k] == k)
    && history != [] && history[|history| - 1] == |holders|
    && |destroyed| == Zeros(history)
  }

  /** One strong reference goes, and the object with the last one. */
  lemma Dropped(weak: Option<nat>, holders: seq<nat>, made: nat, destroyed: seq<nat>, history: seq<nat>, k: nat)
    requires OneLive(weak, holders, made, destroyed, history) && k < |holders|
    ensures var rest := holders[..k] + holders[k + 1..];
            && (holders[k] in rest <==> rest != [])
            && OneLive(weak, rest, made, destroyed + if rest == [] then [holders[k]] else [], history + [|rest|])
  {
    var rest := holders[..k] + holders[k + 1..];
    assert rest != [] ==> rest[0] in rest && rest[0] == holders[k];
    ZerosNext(history, |rest|);
  }

  /** One strong reference more to the live object, or the first one to a new object. */
  lemma Taken(weak: Option<nat>, holders: seq<nat>, made: nat, destroyed: seq<nat>, history: seq<nat>)
    requires OneLive(weak, holders, made, destroyed, history)
    ensures weak.None? || weak.value !in holders <==> holders == []
    ensures holders != [] ==> OneLive(weak, holders + [weak.value], made, destroyed, history + [|holders| + 1])
    ensures holders == [] ==> OneLive(Some(made), [made], made + 1, destroyed, history + [1])
    ensures holders == [] ==> OneLive(None, [], made, destroyed, history + [0])
  {
    assert holders != [] ==> holders[0] in holders;
    ZerosNext(history, |holders| + 1);
    ZerosNext(history, 0);
  }

  /** loop::get_default and what becomes of the references it gives out. */
  class DefaultLoop {
    var ref: Option<nat>
    var holders: seq<nat>
    var made: nat
    var destroyed: seq<nat>
    ghost var history: seq<nat>

    ghost predicate Valid() reads this {
      OneLive(ref, holders, made, destroyed, history)
    }

    constructor ()
      ensures Valid() && history == [0] && holders == [] && destroyed == []
    {
      ref, holders, made, destroyed, history := None, [], 0, [], [0];
    }

    /** `uv_default_loop` may give nothing. */
    method GetDefault(def: bool) returns (curr: Option<nat>)
      requires Valid()
      modifies this
      ensures Valid() && history == old(history) + [|holders|] && destroyed == old(destroyed)
      ensures curr.None? <==> old(holders) == [] && !def
      ensures holders == if curr.Some? then old(holders) + [curr.value] else []
    {
      Taken(ref, holders, made, destroyed, history);
      curr := None;
      if ref.None? || ref.value !in holders {
        if def {
          curr := Some(made);
          holders, made := [made], made + 1;
        }
        ref := curr;
      } else {
        curr := ref;
        holders := holders + [ref.value];
      }
      history := history + [|holders|];
    }

    method Copy(k: nat)
      requires Valid() && k < |holders|
      modifies this`holders, this`history
      ensures Valid() && holders == old(holders) + [old(holders)[k]] && history == old(history) + [|holders|]
    {
      Taken(ref, holders, made, destroyed, history);
      holders := holders + [holders[k]];
      history := history + [|holders|];
    }

    /** The wrapper goes with its last reference. */
    method Release(k: nat)
      requires Valid() && k < |holders|
      modifies this`holders, this`destroyed, this`history
      ensures Valid() && history == old(history) + [|holders|]
      ensures holders == old(holders)[..k] + old(holders)[k + 1..]
      ensures destroyed == old(destroyed) + if holders == [] then [old(holders)[k]] else []
    {
      Dropped(ref, holders, made, destroyed, history, k);
      var id := holders[k];
      holders := holders[..k] + holders[k + 1..];
      if id !in holders {
        destroyed := destroyed + [id];
      }
      history := history + [|holders|];
    }
  }

  /** tty_handle::mode_memo_handler: every tty handle holds one reference for its whole life. */
  class ModeMemo {
    var weak: Option<nat>
    /** The memo of each live tty handle. */
    var ttys: seq<nat>
    var made: nat
    /** The memos destroyed, each resetting the terminal mode once. */
    var resets: seq<nat>
    ghost var history: seq<nat>

    ghost predicate Valid() reads this {
      OneLive(weak, ttys, made, resets, history)
    }

    constructor ()
      ensures Valid() && history == [0] && ttys == [] && resets == []
    {
      weak, ttys, made, resets, history := None, [], 0, [], [0];
    }

    /** A tty handle is constructed. */
    method ConstructTty() returns (shared: nat)
      requires Valid()
      modifies this
      ensures Valid() && history == old(history) + [|ttys|] && resets == old(resets)
      ensures ttys == old(ttys) + [shared]
    {
      Taken(weak, ttys, made, resets, history);
      if weak.Some? && weak.value in ttys {
        shared := weak.value;
      } else {
        shared, made := made, made + 1;
        weak := Some(shared);
      }
      ttys := ttys + [shared];
      history := history + [|ttys|];
    }

    /** A tty handle is destroyed. */
    method DestroyTty(k: nat)
      requires Valid() && k < |ttys|
      modifies this`ttys, this`resets, this`history
      ensures Valid() && history == old(history) + [|ttys|]
      ensures ttys == old(ttys)[..k] + old(ttys)[k + 1..]
      ensures |resets| == |old(resets)| + if |old(ttys)| == 1 then 1 else 0
    {
      Dropped(weak, ttys, made, resets, history, k);
      var id := ttys[k];
      ttys := ttys[..k] + ttys[k + 1..];
      if id !in ttys {
        resets := resets + [id];
      }
      history := history + [|ttys|];
    }
  }
}
