/** The two list idioms of the frame loop: "update every item of a copy of
    the list and remove the ones that are now gone", used for particles,
    coins, pick-ups and blasts, and "remove every item a test picks out",
    used for the coins the paddle catches. */
module Sweeps {

  /** Every item advanced by `step`, in order, without those `gone` says
      have expired. */
  function Swept<T>(s: seq<T>, step: T -> T, gone: T -> bool): seq<T>
  {
    if s == [] then []
    else
      var n := |s| - 1;
      Swept(s[..n], step, gone) + (if gone(step(s[n])) then [] else [step(s[n])])
  }

  /** `for x in xs[:]: x.update(); if x.gone(): xs.remove(x)`. */
  method Sweep<T>(s: seq<T>, step: T -> T, gone: T -> bool) returns (r: seq<T>)
    ensures r == Swept(s, step, gone)
  {
    r := [];
    var i := 0;
    while i < |s|
      invariant 0 <= i <= |s|
      invariant r == Swept(s[..i], step, gone)
    {
      assert s[..i + 1][..i] == s[..i];
      var x := step(s[i]);
      if !gone(x) {
        r := r + [x];
      }
      i := i + 1;
    }
    assert s[..i] == s;
  }

  /** What the sweep keeps: no more items than before, none of them gone,
      each one an advanced item of the input, every advanced item that is
      not gone, and everything when nothing expires. */
  lemma SweptFacts<T>(s: seq<T>, step: T -> T, gone: T -> bool)
    ensures |Swept(s, step, gone)| <= |s|
    ensures forall j :: 0 <= j < |Swept(s, step, gone)| ==> !gone(Swept(s, step, gone)[j])
    ensures forall j :: 0 <= j < |Swept(s, step, gone)| ==>
      exists i :: 0 <= i < |s| && Swept(s, step, gone)[j] == step(s[i])
    ensures forall i :: 0 <= i < |s| && !gone(step(s[i])) ==> step(s[i]) in Swept(s, step, gone)
    ensures (forall i :: 0 <= i < |s| ==> !gone(step(s[i]))) ==>
      |Swept(s, step, gone)| == |s| &&
      forall i :: 0 <= i < |s| ==> Swept(s, step, gone)[i] == step(s[i])
  {
    SweptLive(s, step, gone);
    SweptFrom(s, step, gone);
    SweptKeeps(s, step, gone);
    if forall i :: 0 <= i < |s| ==> !gone(step(s[i])) {
      SweptAll(s, step, gone);
    }
  }

  /** The sweep never grows the list and keeps no expired item. */
  lemma {:induction false} SweptLive<T>(s: seq<T>, step: T -> T, gone: T -> bool)
    ensures |Swept(s, step, gone)| <= |s|
    ensures forall j :: 0 <= j < |Swept(s, step, gone)| ==> !gone(Swept(s, step, gone)[j])
  {
    if s != [] {
      var n := |s| - 1;
      SweptLive(s[..n], step, gone);
      var init := Swept(s[..n], step, gone);
      var all := Swept(s, step, gone);
      assert all == init + (if gone(step(s[n])) then [] else [step(s[n])]);
      forall j | 0 <= j < |all|
        ensures !gone(all[j])
      {
        if j < |init| {
          assert all[j] == init[j];
        }
      }
    }
  }

  /** Every item the sweep keeps is an advanced input item. */
  lemma {:induction false} SweptFrom<T>(s: seq<T>, step: T -> T, gone: T -> bool)
    ensures forall j :: 0 <= j < |Swept(s, step, gone)| ==>
      exists i :: 0 <= i < |s| && Swept(s, step, gone)[j] == step(s[i])
  {
    if s != [] {
      var n := |s| - 1;
      SweptFrom(s[..n], step, gone);
      var init := Swept(s[..n], step, gone);
      var all := Swept(s, step, gone);
      assert all == init + (if gone(step(s[n])) then [] else [step(s[n])]);
      forall j | 0 <= j < |all|
        ensures exists i :: 0 <= i < |s| && all[j] == step(s[i])
      {
        if j < |init| {
          var i :| 0 <= i < n && init[j] == step(s[..n][i]);
          assert s[..n][i] == s[i];
          assert all[j] == init[j] == step(s[i]);
        } else {
          assert all[j] == step(s[n]);
        }
      }
    } else {
      assert Swept(s, step, gone) == [];
    }
  }

  /** Every advanced item that is not gone is kept. */
  lemma {:induction false} SweptKeeps<T>(s: seq<T>, step: T -> T, gone: T -> bool)
    ensures forall i :: 0 <= i < |s| && !gone(step(s[i])) ==> step(s[i]) in Swept(s, step, gone)
  {
    if s != [] {
      var n := |s| - 1;
      SweptKeeps(s[..n], step, gone);
      var init := Swept(s[..n], step, gone);
      var all := Swept(s, step, gone);
      assert all == init + (if gone(step(s[n])) then [] else [step(s[n])]);
      forall i | 0 <= i < |s| && !gone(step(s[i]))
        ensures step(s[i]) in all
      {
        if i < n {
          assert s[..n][i] == s[i];
          assert step(s[i]) in init;
        } else {
          assert all[|all| - 1] == step(s[n]);
        }
      }
    }
  }

  /** When nothing expires the sweep advances every item in place. */
  lemma {:induction false} SweptAll<T>(s: seq<T>, step: T -> T, gone: T -> bool)
    requires forall i :: 0 <= i < |s| ==> !gone(step(s[i]))
    ensures |Swept(s, step, gone)| == |s|
    ensures forall i :: 0 <= i < |s| ==> Swept(s, step, gone)[i] == step(s[i])
  {
    if s != [] {
      var n := |s| - 1;
      forall i | 0 <= i < n
        ensures !gone(step(s[..n][i]))
      {
        assert s[..n][i] == s[i];
      }
      SweptAll(s[..n], step, gone);
      var init := Swept(s[..n], step, gone);
      var all := Swept(s, step, gone);
      assert all == init + [step(s[n])];
      forall i | 0 <= i < |s|
        ensures all[i] == step(s[i])
      {
        if i < n {
          assert all[i] == init[i] == step(s[..n][i]);
        }
      }
    }
  }

  /** The items `taken` does not pick, in order. */
  function Remaining<T>(s: seq<T>, taken: T -> bool): seq<T>
  {
    if s == [] then []
    else
      var n := |s| - 1;
      Remaining(s[..n], taken) + (if taken(s[n]) then [] else [s[n]])
  }

  /** How many items `taken` picks. */
  function Taken<T>(s: seq<T>, taken: T -> bool): nat
  {
    if s == [] then 0
    else
      var n := |s| - 1;
      Taken(s[..n], taken) + (if taken(s[n]) then 1 else 0)
  }

  /** `for x in xs[:]: if test(x): xs.remove(x)`, counting the removals. */
  method Remove<T>(s: seq<T>, taken: T -> bool) returns (r: seq<T>, count: nat)
    ensures r == Remaining(s, taken) && count == Taken(s, taken)
  {
    r := [];
    count := 0;
    var i := 0;
    while i < |s|
      invariant 0 <= i <= |s|
      invariant r == Remaining(s[..i], taken) && count == Taken(s[..i], taken)
    {
      assert s[..i + 1][..i] == s[..i];
      if taken(s[i]) {
        count := count + 1;
      } else {
        r := r + [s[i]];
      }
      i := i + 1;
    }
    assert s[..i] == s;
  }

  /** Every item is either kept or counted; the kept ones fail the test and
      come from the input; nothing is removed when nothing is picked. */
  lemma {:induction false} RemainingFacts<T>(s: seq<T>, taken: T -> bool)
    ensures |Remaining(s, taken)| + Taken(s, taken) == |s|
    ensures forall j :: 0 <= j < |Remaining(s, taken)| ==>
      !taken(Remaining(s, taken)[j]) && Remaining(s, taken)[j] in s
    ensures (forall i :: 0 <= i < |s| ==> !taken(s[i])) ==> Remaining(s, taken) == s
  {
    if s != [] {
      var n := |s| - 1;
      RemainingFacts(s[..n], taken);
      var init := Remaining(s[..n], taken);
      var all := Remaining(s, taken);
      forall j | 0 <= j < |all|
        ensures all[j] in s
      {
        if j < |init| {
          assert init[j] in s[..n];
        }
      }
      if forall i :: 0 <= i < |s| ==> !taken(s[i]) {
        assert forall i :: 0 <= i < n ==> s[..n][i] == s[i];
        assert init == s[..n];
        assert s == s[..n] + [s[n]];
      }
    }
  }
}
