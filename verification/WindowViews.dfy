/** Which view a window presents on a server (`electron/windowWorkspaceView.ts`, and the mount in
    `electron/main.ts`). */
module WindowViews {
  import opened Common

  /** A view by what its id says: the server's default, the own view of a number, or any other. */
  datatype View = Default | Own(number: nat) | Named(id: string)

  datatype Choice = Choice(view: View, ownView: bool)

  // ---- Choosing ----

  ghost predicate LeastOwn(others: set<View>, number: nat) {
    number >= 2 && Own(number) !in others && forall k: nat :: 2 <= k < number ==> Own(k) in others
  }

  function OwnFrom(n: nat): set<View> {
    set k | 2 <= k < n :: Own(k)
  }

  lemma {:induction false} OwnCount(n: nat)
    requires n >= 2
    ensures |OwnFrom(n)| == n - 2
  {
    if n == 2 {
      assert OwnFrom(n) == {};
    } else {
      OwnCount(n - 1);
      assert OwnFrom(n) == OwnFrom(n - 1) + {Own(n - 1)};
    }
  }

  lemma {:induction false} SubsetSize(a: set<View>, b: set<View>)
    requires a <= b
    ensures |a| <= |b|
  {
    if x :| x in a {
      SubsetSize(a - {x}, b - {x});
    } else {
      assert a == {};
    }
  }

  lemma OwnFits(others: set<View>, n: nat)
    requires n >= 2 && forall k: nat :: 2 <= k < n ==> Own(k) in others
    ensures n - 2 <= |others|
    ensures Default in others ==> n - 1 <= |others|
  {
    OwnCount(n);
    if Default in others {
      SubsetSize(OwnFrom(n), others - {Default});
    } else {
      SubsetSize(OwnFrom(n), others);
    }
  }

  function Views(keys: seq<View>): (r: set<View>)
    ensures |r| <= |keys|
  {
    if keys == [] then {}
    else
      var n := |keys| - 1;
      Views(keys[..n]) + {keys[n]}
  }

  lemma {:induction false} ViewsAreKeys(keys: seq<View>, v: View)
    ensures v in Views(keys) <==> v in keys
  {
    if keys != [] {
      var n := |keys| - 1;
      assert keys == keys[..n] + [keys[n]];
      ViewsAreKeys(keys[..n], v);
    }
  }

  /** The view is new on the server unless the window was torn off for one; a further window's own view has the
      lowest free number, which is at most the number of windows then on the server. */
  method ChooseWindowView(tornOff: Option<View>, others: seq<View>) returns (c: Choice)
    ensures tornOff.Some? ==> c == Choice(tornOff.value, false)
    ensures tornOff == None && Default !in others ==> c == Choice(Default, false)
    ensures tornOff == None && Default in others ==>
      c.ownView && c.view.Own? && LeastOwn(Views(others), c.view.number) && c.view.number <= |others| + 1
    ensures tornOff == None ==> c.view !in others
  {
    if tornOff.Some? {
      return Choice(tornOff.value, false);
    }
    if Default !in others {
      return Choice(Default, false);
    }
    var taken := Views(others);
    ViewsAreKeys(others, Default);
    var slot := 2;
    while Own(slot) in taken
      invariant slot >= 2 && forall k: nat :: 2 <= k < slot ==> Own(k) in taken
      decreases |taken| + 2 - slot
    {
      OwnFits(taken, slot + 1);
      slot := slot + 1;
    }
    OwnFits(taken, slot);
    ViewsAreKeys(others, Own(slot));
    c := Choice(Own(slot), true);
  }

  // ---- Windows ----

  datatype Window = Window(
    auxiliary: bool,
    tornOffView: Option<View>,
    tornOffProfile: Option<string>,
    profile: string,
    view: Option<View>)

  type Windows = map<int, Window>

  /** A workspace window that presents a view on a server. */
  predicate Presents(windows: Windows, w: int, profile: string, view: View) {
    w in windows && !windows[w].auxiliary && windows[w].profile == profile && windows[w].view == Some(view)
  }

  /** No two workspace windows on one server present the same view. */
  ghost predicate Distinct(windows: Windows) {
    forall a, b, profile, view :: Presents(windows, a, profile, view) && Presents(windows, b, profile, view) ==> a == b
  }

  /** What the other workspace windows on a server present. */
  ghost predicate OthersOn(windows: Windows, w: int, profile: string, others: seq<View>) {
    forall v :: v in others <==> exists o :: o != w && Presents(windows, o, profile, v)
  }

  /** The view the window was torn off for, on the first server it is mounted on. */
  function TornOffOn(window: Window, profile: string): Option<View> {
    if window.tornOffView.Some? && (window.tornOffProfile == None || window.tornOffProfile == Some(profile))
    then window.tornOffView else None
  }

  function Mounted(window: Window, profile: string, view: View): Window {
    window.(profile := profile, view := Some(view),
            tornOffProfile := if window.tornOffProfile == None then Some(profile) else window.tornOffProfile)
  }

  method Mount(windows: Windows, w: int, profile: string, others: seq<View>) returns (r: Windows, view: View)
    requires w in windows && OthersOn(windows, w, profile, others)
    ensures r == windows[w := Mounted(windows[w], profile, view)]
    ensures windows[w].auxiliary ==> view == Default
    ensures !windows[w].auxiliary && TornOffOn(windows[w], profile).Some? ==>
      view == TornOffOn(windows[w], profile).value
    ensures !windows[w].auxiliary && TornOffOn(windows[w], profile) == None ==> FirstOrOwn(Views(others), view)
  {
    var window := windows[w];
    if window.auxiliary {
      view := Default;
    } else {
      var choice := ChooseWindowView(TornOffOn(window, profile), others);
      view := choice.view;
      ViewsAreKeys(others, Default);
    }
    r := windows[w := Mounted(window, profile, view)];
  }

  /** The default view if nobody presents it, and otherwise the lowest free own view. */
  ghost predicate FirstOrOwn(others: set<View>, view: View) {
    if Default !in others then view == Default else view.Own? && LeastOwn(others, view.number)
  }

  /** A mount keeps the views distinct exactly unless it puts a torn-off view where another window presents
      one of the same id. */
  lemma MountKeepsDistinctExactly(windows: Windows, w: int, profile: string, others: seq<View>, view: View)
    requires Distinct(windows) && w in windows && OthersOn(windows, w, profile, others)
    requires windows[w].auxiliary ==> view == Default
    requires !windows[w].auxiliary && TornOffOn(windows[w], profile).Some? ==>
               view == TornOffOn(windows[w], profile).value
    requires !windows[w].auxiliary && TornOffOn(windows[w], profile) == None ==> FirstOrOwn(Views(others), view)
    ensures Distinct(windows[w := Mounted(windows[w], profile, view)])
            <==> windows[w].auxiliary || TornOffOn(windows[w], profile) == None || view !in others
  {
    var after := windows[w := Mounted(windows[w], profile, view)];
    ViewsAreKeys(others, view);
    ViewsAreKeys(others, Default);
    forall o, p, v | o != w ensures Presents(after, o, p, v) <==> Presents(windows, o, p, v) {
    }
    if !windows[w].auxiliary && view in others {
      var o :| o != w && Presents(windows, o, profile, view);
      assert Presents(after, o, profile, view) && Presents(after, w, profile, view);
    } else {
      forall a, b, p, v | Presents(after, a, p, v) && Presents(after, b, p, v) ensures a == b {
        if a != w && b != w {
          assert Presents(windows, a, p, v) && Presents(windows, b, p, v);
        }
      }
    }
  }

  // ---- Runs ----

  predicate SameTornOff(v: Window, w: Window) {
    v.tornOffView.Some? && v.tornOffProfile.Some? && v.tornOffView == w.tornOffView
    && v.tornOffProfile == w.tornOffProfile
  }

  /** Torn-off views have names of their own, and no two open windows the same one on the same server. */
  ghost predicate TornOffApart(windows: Windows) {
    && (forall w :: w in windows && windows[w].tornOffView.Some? ==> windows[w].tornOffView.value.Named?)
    && (forall a, b :: a in windows && b in windows && SameTornOff(windows[a], windows[b]) ==> a == b)
  }

  /** A named view is presented only by the window torn off for it, on the server it was torn off on. */
  ghost predicate NamedAreOwned(windows: Windows) {
    forall w, p, v :: Presents(windows, w, p, v) && v.Named? ==>
                        windows[w].tornOffView == Some(v) && windows[w].tornOffProfile == Some(p)
  }

  ghost predicate Opens(a: Windows, b: Windows, w: int) {
    w !in a && w in b && b[w].view == None && b[w].tornOffProfile == None && b == a[w := b[w]] && TornOffApart(b)
  }

  ghost predicate Chosen(windows: Windows, w: int, profile: string, others: seq<View>, view: View)
    requires w in windows
  {
    && OthersOn(windows, w, profile, others)
    && if windows[w].auxiliary then view == Default
       else if TornOffOn(windows[w], profile).Some? then view == TornOffOn(windows[w], profile).value
       else FirstOrOwn(Views(others), view)
  }

  ghost predicate Mounts(a: Windows, b: Windows, w: int) {
    w in a && TornOffApart(b) && exists profile, others, view :: Chosen(a, w, profile, others, view)
                                              && b == a[w := Mounted(a[w], profile, view)]
  }

  /** A window opens, is mounted on a server or closes. */
  ghost predicate Moves(a: Windows, b: Windows) {
    exists w :: Opens(a, b, w) || Mounts(a, b, w) || (w in a && b == a - {w})
  }

  ghost predicate Kept(windows: Windows) {
    Distinct(windows) && TornOffApart(windows) && NamedAreOwned(windows)
  }

  lemma MountKeeps(a: Windows, w: int, profile: string, others: seq<View>, view: View)
    requires Kept(a) && w in a && Chosen(a, w, profile, others, view)
    requires TornOffApart(a[w := Mounted(a[w], profile, view)])
    ensures Kept(a[w := Mounted(a[w], profile, view)])
  {
    var b := a[w := Mounted(a[w], profile, view)];
    forall o | o in a && o != w && TornOffOn(a[w], profile) == Some(view) && !a[w].auxiliary
      ensures !Presents(a, o, profile, view)
    {
      assert !SameTornOff(b[o], b[w]);
    }
    MountKeepsDistinctExactly(a, w, profile, others, view);
    forall o, p, v | Presents(b, o, p, v) && v.Named?
      ensures b[o].tornOffView == Some(v) && b[o].tornOffProfile == Some(p)
    {
      if o == w {
        assert view == v && p == profile && TornOffOn(a[w], profile) == Some(view);
      } else {
        assert Presents(a, o, p, v) && b[o] == a[o];
      }
    }
  }

  lemma FewerPresent(a: Windows, b: Windows)
    requires Distinct(a) && NamedAreOwned(a)
    requires forall w :: w in b && (w !in a || b[w] != a[w]) ==> b[w].view == None
    ensures Distinct(b) && NamedAreOwned(b)
  {
    forall x, p, v | Presents(b, x, p, v) ensures Presents(a, x, p, v) && b[x] == a[x] {
    }
    forall x, y, p, v | Presents(b, x, p, v) && Presents(b, y, p, v) ensures x == y {
      assert Presents(a, x, p, v) && Presents(a, y, p, v);
    }
  }

  lemma OpenKeeps(a: Windows, b: Windows, w: int)
    requires Kept(a) && Opens(a, b, w)
    ensures Kept(b)
  {
    FewerPresent(a, b);
  }

  lemma CloseKeeps(a: Windows, w: int)
    requires Kept(a)
    ensures Kept(a - {w})
  {
    var b := a - {w};
    FewerPresent(a, b);
  }

  lemma MoveKeeps(a: Windows, b: Windows)
    requires Kept(a) && Moves(a, b)
    ensures Kept(b)
  {
    var w :| Opens(a, b, w) || Mounts(a, b, w) || (w in a && b == a - {w});
    if Opens(a, b, w) {
      OpenKeeps(a, b, w);
    } else if Mounts(a, b, w) {
      var profile, others, view :| Chosen(a, w, profile, others, view) && b == a[w := Mounted(a[w], profile, view)];
      MountKeeps(a, w, profile, others, view);
    } else {
      CloseKeeps(a, w);
    }
  }

  /** Over any run of windows opening, mounting, switching servers and closing, no two workspace windows on one server
      present the same view, as long as torn-off views have names of their own. */
  lemma {:induction false} EveryRunKeepsViewsDistinct(run: seq<Windows>)
    requires run != [] && run[0] == map[]
    requires forall i :: 0 <= i < |run| - 1 ==> Moves(run[i], run[i + 1])
    ensures Kept(run[|run| - 1])
  {
    var n := |run| - 1;
    if n > 0 {
      EveryRunKeepsViewsDistinct(run[..n]);
      assert run[..n][n - 1] == run[n - 1];
      MoveKeeps(run[n - 1], run[n]);
    }
  }
}
