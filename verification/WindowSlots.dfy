/** The composition slots of `electron/main.ts`: each window takes the lowest free number beside its
    identity and gives it back when it closes. */
module WindowSlots {
  datatype Held = Held(identity: string, slot: nat)

  type Holders = map<int, Held>

  /** The slots of an identity in use. */
  function UsedBy(held: Holders, identity: string): set<nat> {
    set w | w in held && held[w].identity == identity :: held[w].slot
  }

  function WindowsOf(held: Holders, identity: string): set<int> {
    set w | w in held && held[w].identity == identity
  }

  /** No two windows hold the same slot of one identity. */
  ghost predicate Exclusive(held: Holders) {
    forall v, w :: v in held && w in held && held[v] == held[w] ==> v == w
  }

  ghost predicate LeastFree(used: set<nat>, slot: nat) {
    slot !in used && forall k: nat :: k < slot ==> k in used
  }

  lemma OneLeast(used: set<nat>, a: nat, b: nat)
    requires LeastFree(used, a) && LeastFree(used, b)
    ensures a == b
  {
    assert !(a < b) && !(b < a);
  }

  lemma {:induction false} BelowFits(used: set<nat>, n: nat)
    requires forall k: nat :: k < n ==> k in used
    ensures n <= |used|
  {
    if n > 0 {
      BelowFits(used - {n - 1}, n - 1);
    }
  }

  function First(used: set<nat>, k: nat): (slot: nat)
    requires forall j: nat :: j < k ==> j in used
    ensures LeastFree(used, slot)
    decreases |used| - k
  {
    BelowFits(used, k);
    if k in used then BelowFits(used, k + 1); First(used, k + 1) else k
  }

  /** The holders once a window has given up what it held and taken the lowest free slot. */
  function Claimed(held: Holders, window: int, identity: string): Holders {
    var others := held - {window};
    others[window := Held(identity, First(UsedBy(others, identity), 0))]
  }

  lemma UsedWithout(held: Holders, window: int, identity: string)
    requires window in held && Exclusive(held)
    ensures UsedBy(held - {window}, identity)
            == UsedBy(held, identity) - if identity == held[window].identity then {held[window].slot} else {}
  {
    var after, h := held - {window}, held[window];
    forall s ensures s in UsedBy(after, identity) <==>
        s in UsedBy(held, identity) && !(identity == h.identity && s == h.slot)
    {
      if s in UsedBy(held, identity) && !(identity == h.identity && s == h.slot) {
        var w :| w in held && held[w].identity == identity && held[w].slot == s;
        assert w in after && after[w] == held[w];
      }
      if s in UsedBy(after, identity) {
        var w :| w in after && after[w].identity == identity && after[w].slot == s;
        assert held[w] == after[w];
      }
    }
  }

  lemma UsedWith(held: Holders, window: int, h: Held, identity: string)
    requires window !in held
    ensures UsedBy(held[window := h], identity)
            == UsedBy(held, identity) + if identity == h.identity then {h.slot} else {}
  {
    var after := held[window := h];
    forall s ensures s in UsedBy(after, identity) <==>
        s in UsedBy(held, identity) || (identity == h.identity && s == h.slot)
    {
      if s in UsedBy(held, identity) {
        var w :| w in held && held[w].identity == identity && held[w].slot == s;
        assert after[w] == held[w];
      }
      if identity == h.identity && s == h.slot {
        assert after[window] == h;
      }
    }
  }

  lemma {:induction false} OneWindowPerSlot(held: Holders, identity: string)
    requires Exclusive(held)
    ensures |UsedBy(held, identity)| == |WindowsOf(held, identity)|
    decreases |held|
  {
    if w :| w in held {
      var rest := held - {w};
      OneWindowPerSlot(rest, identity);
      UsedWithout(held, w, identity);
      assert held[w].identity == identity ==> held[w].slot in UsedBy(held, identity);
      assert WindowsOf(rest, identity)
          == WindowsOf(held, identity) - if held[w].identity == identity then {w} else {};
    } else {
      assert forall w :: w !in WindowsOf(held, identity);
      assert WindowsOf(held, identity) == {};
      assert UsedBy(held, identity) == {};
    }
  }

  method FirstFree(used: set<nat>) returns (slot: nat)
    ensures slot == First(used, 0)
  {
    slot := 0;
    while slot in used
      invariant forall k: nat :: k < slot ==> k in used
      invariant First(used, 0) == First(used, slot)
      decreases |used| - slot
    {
      BelowFits(used, slot + 1);
      slot := slot + 1;
    }
  }

  /** The two maps of the program say the same: an identity is listed with exactly the slots its windows hold, and not
      at all without one. */
  ghost predicate Inverse(used: map<string, set<nat>>, held: Holders) {
    forall identity ::
      && (identity in used <==> UsedBy(held, identity) != {})
      && (identity in used ==> used[identity] == UsedBy(held, identity))
  }

  function Slots(used: map<string, set<nat>>, identity: string): set<nat> {
    if identity in used then used[identity] else {}
  }

  lemma ClaimKeepsInverse(used: map<string, set<nat>>, held: Holders, window: int, h: Held)
    requires Inverse(used, held) && window !in held
    ensures Inverse(used[h.identity := Slots(used, h.identity) + {h.slot}], held[window := h])
  {
    forall id {
      UsedWith(held, window, h, id);
    }
  }

  lemma ReleaseKeepsInverse(used: map<string, set<nat>>, held: Holders, window: int)
    requires Inverse(used, held) && Exclusive(held) && window in held
    ensures var h := held[window];
      && h.identity in used
      && var slots := used[h.identity] - {h.slot};
      Inverse(if slots == {} then used - {h.identity} else used[h.identity := slots], held - {window})
  {
    assert held[window].slot in UsedBy(held, held[window].identity);
    forall id {
      UsedWithout(held, window, id);
    }
  }

  class CompositionSlots {
    var used: map<string, set<nat>>
    var held: Holders

    ghost predicate Valid()
      reads this
    {
      Inverse(used, held) && Exclusive(held)
    }

    constructor ()
      ensures Valid() && held == map[]
    {
      used, held := map[], map[];
    }

    method Release(window: int)
      requires Valid()
      modifies this
      ensures Valid() && held == old(held) - {window}
    {
      if window !in held {
        assert held == held - {window};
        return;
      }
      var h := held[window];
      ReleaseKeepsInverse(used, held, window);
      // The program also guards against an identity that is not listed, which does not happen.
      held := held - {window};
      var slots := used[h.identity] - {h.slot};
      used := if |slots| == 0 then used - {h.identity} else used[h.identity := slots];
    }

    method Claim(window: int, identity: string) returns (slot: nat)
      requires Valid()
      modifies this
      ensures Valid() && held == Claimed(old(held), window, identity) && slot == held[window].slot
    {
      ClaimIsLowest(held, window, identity);
      Release(window);
      var slots := Slots(used, identity);
      slot := FirstFree(slots);
      ClaimKeepsInverse(used, held, window, Held(identity, slot));
      used := used[identity := slots + {slot}];
      held := held[window := Held(identity, slot)];
    }
  }

  /** A claim keeps slots exclusive and takes the lowest free one, which is at most the number of other
      windows of the identity. */
  lemma ClaimIsLowest(held: Holders, window: int, identity: string)
    requires Exclusive(held)
    ensures var after, others := Claimed(held, window, identity), held - {window};
      && Exclusive(after)
      && LeastFree(UsedBy(others, identity), after[window].slot)
      && after[window].slot <= |WindowsOf(others, identity)|
      && after - {window} == others
  {
    var others := held - {window};
    var h := Claimed(held, window, identity)[window];
    OneWindowPerSlot(others, identity);
    BelowFits(UsedBy(others, identity), h.slot);
    forall w | w in others ensures others[w] != h {
      if others[w].identity == identity {
        assert others[w].slot in UsedBy(others, identity);
      }
    }
  }

  // ---- Reopening the same windows ----

  function ClaimEach(held: Holders, windows: seq<int>, identity: string): Holders {
    if windows == [] then held
    else Claimed(ClaimEach(held, windows[..|windows| - 1], identity), windows[|windows| - 1], identity)
  }

  /** Windows that come back when nobody holds the identity get 0, 1, 2 and so on in the order they come, and so the
      records they had before. */
  lemma {:induction false} ReopenedInOrder(held: Holders, windows: seq<int>, identity: string)
    requires Exclusive(held) && WindowsOf(held, identity) == {}
    requires forall i, j :: 0 <= i < j < |windows| ==> windows[i] != windows[j]
    ensures var after := ClaimEach(held, windows, identity);
      && Exclusive(after)
      && (forall i :: 0 <= i < |windows| ==> windows[i] in after && after[windows[i]] == Held(identity, i))
      && (forall w :: w in after && after[w].identity == identity ==> w in windows)
  {
    if windows == [] {
      assert forall w :: w in held && held[w].identity == identity ==> w in WindowsOf(held, identity);
    } else {
      var n := |windows| - 1;
      ReopenedInOrder(held, windows[..n], identity);
      NextInOrder(ClaimEach(held, windows[..n], identity), windows, n, identity);
    }
  }

  lemma NextInOrder(held: Holders, windows: seq<int>, n: nat, identity: string)
    requires Exclusive(held) && n + 1 == |windows|
    requires forall i, j :: 0 <= i < j < |windows| ==> windows[i] != windows[j]
    requires forall i :: 0 <= i < n ==> windows[i] in held && held[windows[i]] == Held(identity, i)
    requires forall w :: w in held && held[w].identity == identity ==> w in windows[..n]
    ensures var after := Claimed(held, windows[n], identity);
      && Exclusive(after)
      && (forall i :: 0 <= i <= n ==> windows[i] in after && after[windows[i]] == Held(identity, i))
      && (forall w :: w in after && after[w].identity == identity ==> w in windows)
  {
    var others := held - {windows[n]};
    ClaimIsLowest(held, windows[n], identity);
    forall k: nat ensures k in UsedBy(others, identity) <==> k < n {
      if k < n {
        assert windows[k] in others && others[windows[k]] == Held(identity, k);
      }
      if k in UsedBy(others, identity) {
        var w :| w in others && others[w].identity == identity && others[w].slot == k;
        var i :| 0 <= i < n && windows[..n][i] == w;
        assert windows[i] == w;
      }
    }
    OneLeast(UsedBy(others, identity), Claimed(held, windows[n], identity)[windows[n]].slot, n);
  }
}
