/** What `electron/appUpdater.ts` reads from its sources: the release notes it lists and the source it
    takes an update from. */
module UpdateSources {
  import opened Common
  import opened Versions

  // ---- Release notes ----

  datatype Tag = Tag(major: nat, minor: nat, patch: nat)

  /** A published release; the tag is missing when it is not of the form `vX.Y.Z`. */
  datatype Release = Release(draft: bool, prerelease: bool, tag: Option<Tag>, body: string)

  datatype Note = Note(version: Version, body: string)

  const MAX_RELEASE_NOTES := 50

  function TagVersion(t: Tag): Version {
    Version(t.major, t.minor, t.patch, [])
  }

  /** Worth a note: published, and `installed < version <= available`. */
  predicate Qualifies(r: Release, installed: Option<Version>, available: Option<Version>) {
    && !r.draft && !r.prerelease && r.tag.Some?
    && Compare(Some(TagVersion(r.tag.value)), installed) > 0
    && Compare(Some(TagVersion(r.tag.value)), available) <= 0
  }

  function NoteOf(r: Release): Note
    requires r.tag.Some?
  {
    Note(TagVersion(r.tag.value), r.body)
  }

  function Qualifying(releases: seq<Release>, installed: Option<Version>, available: Option<Version>): (r: seq<Note>)
    ensures forall note :: note in r <==>
              exists x :: x in releases && Qualifies(x, installed, available) && note == NoteOf(x)
  {
    if releases == [] then []
    else
      var n := |releases| - 1;
      var before := Qualifying(releases[..n], installed, available);
      assert releases == releases[..n] + [releases[n]];
      if Qualifies(releases[n], installed, available) then before + [NoteOf(releases[n])] else before
  }

  function CompareNotes(a: Note, b: Note): int {
    CompareParsed(b.version, a.version)
  }

  function InsertNote(note: Note, notes: seq<Note>): (r: seq<Note>)
    ensures multiset(r) == multiset(notes) + multiset{note}
  {
    if notes == [] then [note]
    else if CompareNotes(note, notes[0]) < 0 then [note] + notes
    else
      assert notes == [notes[0]] + notes[1..];
      [notes[0]] + InsertNote(note, notes[1..])
  }

  /** The stable sort of the notes. */
  function SortNotes(notes: seq<Note>): (r: seq<Note>)
    ensures multiset(r) == multiset(notes)
  {
    if notes == [] then []
    else
      var n := |notes| - 1;
      assert notes == notes[..n] + [notes[n]];
      InsertNote(notes[n], SortNotes(notes[..n]))
  }

  ghost predicate NewestFirst(notes: seq<Note>) {
    forall i, j :: 0 <= i < j < |notes| ==> CompareNotes(notes[i], notes[j]) <= 0
  }

  lemma {:induction false} InsertKeepsOrder(note: Note, notes: seq<Note>)
    requires NewestFirst(notes)
    ensures NewestFirst(InsertNote(note, notes))
  {
    if notes != [] {
      var head := notes[0];
      ParsedAntisymmetric(note.version, head.version);
      ParsedAntisymmetric(head.version, note.version);
      if CompareNotes(note, head) < 0 {
        forall k | 0 < k < |notes| ensures CompareNotes(note, notes[k]) <= 0 {
          ParsedTransitive(notes[k].version, head.version, note.version);
        }
      } else {
        InsertKeepsOrder(note, notes[1..]);
        var rest := InsertNote(note, notes[1..]);
        forall k | 0 <= k < |rest| ensures CompareNotes(head, rest[k]) <= 0 {
          InSame(rest, notes[1..] + [note], rest[k]);
        }
      }
    }
  }

  lemma {:induction false} SortOrders(notes: seq<Note>)
    ensures NewestFirst(SortNotes(notes))
  {
    if notes != [] {
      var n := |notes| - 1;
      SortOrders(notes[..n]);
      InsertKeepsOrder(notes[n], SortNotes(notes[..n]));
    }
  }

  method QualifyingNotes(releases: seq<Release>, installed: Option<Version>, available: Option<Version>)
      returns (notes: seq<Note>)
    ensures notes == Qualifying(releases, installed, available)
  {
    notes := [];
    for i := 0 to |releases|
      invariant notes == Qualifying(releases[..i], installed, available)
    {
      assert releases[..i + 1][..i] == releases[..i];
      var release := releases[i];
      if release.draft || release.prerelease || release.tag == None {
        continue;
      }
      var version := TagVersion(release.tag.value);
      var older := CompareVersions(Some(version), installed);
      var newer := CompareVersions(Some(version), available);
      if older <= 0 || newer > 0 {
        continue;
      }
      notes := notes + [Note(version, release.body)];
    }
    assert releases[..|releases|] == releases;
  }

  method StableReleaseNotes(releases: seq<Release>, installed: Option<Version>, available: Option<Version>)
      returns (r: seq<Note>)
    ensures r <= SortNotes(Qualifying(releases, installed, available))
    ensures |r| == if |Qualifying(releases, installed, available)| < MAX_RELEASE_NOTES
                   then |Qualifying(releases, installed, available)| else MAX_RELEASE_NOTES
  {
    var notes := QualifyingNotes(releases, installed, available);
    var sorted := SortNotes(notes);
    assert |sorted| == |multiset(sorted)| == |multiset(notes)| == |notes|;
    r := if |sorted| < MAX_RELEASE_NOTES then sorted else sorted[..MAX_RELEASE_NOTES];
  }

  lemma InPrefix(sorted: seq<Note>, r: seq<Note>, note: Note)
    requires r <= sorted && note in r
    ensures note in sorted
  {
    var k :| 0 <= k < |r| && r[k] == note;
    assert sorted[k] == note;
  }

  lemma LaterIsNoNewer(sorted: seq<Note>, r: seq<Note>, note: Note, x: Note)
    requires NewestFirst(sorted) && r <= sorted && note in r && x in sorted && x !in r
    ensures CompareNotes(note, x) <= 0
  {
    var i :| 0 <= i < |r| && r[i] == note;
    var j :| 0 <= j < |sorted| && sorted[j] == x;
    assert sorted[i] == note;
    assert j >= |r| by {
      assert forall k :: 0 <= k < |r| ==> r[k] in r && r[k] == sorted[k];
    }
  }

  /** The notes listed are the newest ones after the installed version and up to the available one, in
      order: whatever is left out is no newer than anything listed. */
  lemma NotesAreTheNewest(releases: seq<Release>, installed: Option<Version>, available: Option<Version>, r: seq<Note>)
    requires r <= SortNotes(Qualifying(releases, installed, available))
    ensures NewestFirst(r)
    ensures forall note :: note in r ==>
              Compare(Some(note.version), installed) > 0 && Compare(Some(note.version), available) <= 0
    ensures forall x :: x in releases && Qualifies(x, installed, available) ==>
              NoteOf(x) in r || forall note :: note in r ==> CompareNotes(note, NoteOf(x)) <= 0
  {
    var all := Qualifying(releases, installed, available);
    var sorted := SortNotes(all);
    SortOrders(all);
    forall note | note in r
      ensures Compare(Some(note.version), installed) > 0 && Compare(Some(note.version), available) <= 0
    {
      InPrefix(sorted, r, note);
      InSame(sorted, all, note);
    }
    forall x, note | x in releases && Qualifies(x, installed, available) && NoteOf(x) !in r && note in r
      ensures CompareNotes(note, NoteOf(x)) <= 0
    {
      InSame(sorted, all, NoteOf(x));
      LaterIsNoNewer(sorted, r, note, NoteOf(x));
    }
  }

  // ---- The source of an update ----

  datatype Source = Stable | Beta

  datatype Selected = Selected(source: Source, version: Version)

  type Probe = Result<Version, string>

  function SelectSource(channel: Source, beta: Probe, stable: Probe): Result<Selected, string> {
    if channel == Stable then
      if stable.Err? then Err(stable.error) else Ok(Selected(Stable, stable.value))
    else if beta.Err? then
      if stable.Err? then Err(beta.error) else Ok(Selected(Stable, stable.value))
    else if stable.Ok? && Compare(Some(stable.value), Some(beta.value)) > 0 then Ok(Selected(Stable, stable.value))
    else Ok(Selected(Beta, beta.value))
  }

  function Published(source: Source, beta: Probe, stable: Probe): Option<Version> {
    var probe := if source == Beta then beta else stable;
    if probe.Ok? then Some(probe.value) else None
  }

  /** Beta takes the higher of the versions it can read, the prerelease when they tie, and fails only when it can
      read neither; Stable reads nothing but the stable source. */
  lemma SelectedIsTheHighest(channel: Source, beta: Probe, stable: Probe)
    ensures var r := SelectSource(channel, beta, stable);
      && (r.Ok? ==> Published(r.value.source, beta, stable) == Some(r.value.version))
      && (channel == Stable ==> (r.Ok? <==> stable.Ok?) && (r.Ok? ==> r.value.source == Stable))
      && (channel == Beta ==>
            && (r.Err? <==> beta.Err? && stable.Err?)
            && (r.Ok? ==> forall other ::
                  Compare(Published(other, beta, stable), Some(r.value.version)) <= 0)
            && (r.Ok? && Published(Beta, beta, stable) == Some(r.value.version) ==> r.value.source == Beta))
  {
    if beta.Ok? && stable.Ok? {
      ParsedAntisymmetric(stable.value, beta.value);
      ParsedAntisymmetric(beta.value, stable.value);
    }
    if beta.Ok? { ParsedAntisymmetric(beta.value, beta.value); }
    if stable.Ok? { ParsedAntisymmetric(stable.value, stable.value); }
  }
}
