/**
 What the release scanner does to one repository's cursor, and what that amounts to over all its observations: every
 change of the latest tag is announced, except that what the first observation saw is the baseline.
 */
module ReleaseHistory {
  import opened Prelude
  import opened SubscriptionTables

  /** The cursor of a repository without a release; a git tag cannot contain a space. */
  const NoReleaseYet := "(no release)"

  /** A successful look at the latest release. */
  type Observation = Option<Release>

  predicate HasNewRelease(lastSeenTag: string, tag: string) {
    lastSeenTag != "" && tag != lastSeenTag
  }

  /** What a successful processing makes of the cursor, and what it announces. */
  function Observe(cursor: string, seen: Observation): (string, Option<Release>) {
    if cursor == "" then
      (match seen case Some(r) => r.tag case None => NoReleaseYet, None)
    else
      match seen
      case None => (cursor, None)
      case Some(r) => if HasNewRelease(cursor, r.tag) then (r.tag, Some(r)) else (cursor, None)
  }

  function Announced(announcement: Option<Release>): seq<Release> {
    match announcement case Some(r) => [r] case None => []
  }

  /** Cursor and announcements after a history of observations, starting without a cursor. */
  function Fold(history: seq<Observation>): (string, seq<Release>)
    decreases |history|
  {
    if history == [] then ("", [])
    else
      var n := |history| - 1;
      var (cursor, announced) := Fold(history[..n]);
      var (cursor', announcement) := Observe(cursor, history[n]);
      (cursor', announced + Announced(announcement))
  }

  // -- The reference

  /** The releases seen, in order. */
  function Present(history: seq<Observation>): seq<Release>
    decreases |history|
  {
    if history == [] then []
    else Present(history[..|history| - 1]) + Announced(history[|history| - 1])
  }

  /** Consecutive repeats of a tag removed. */
  function Collapse(releases: seq<Release>): seq<Release>
    decreases |releases|
  {
    if releases == [] then []
    else
      var n := |releases| - 1;
      Collapse(releases[..n]) + (if n > 0 && releases[n - 1].tag == releases[n].tag then [] else [releases[n]])
  }

  function Expected(history: seq<Observation>): seq<Release> {
    var changes := Collapse(Present(history));
    if history != [] && history[0].Some? && changes != [] then changes[1..] else changes
  }

  function ExpectedCursor(history: seq<Observation>): string {
    if history == [] then ""
    else if Present(history) == [] then NoReleaseYet
    else Present(history)[|Present(history)| - 1].tag
  }

  predicate Correct(history: seq<Observation>) {
    Fold(history) == (ExpectedCursor(history), Expected(history))
  }

  /** The tag is another than just before. */
  predicate Changes(releases: seq<Release>, i: nat)
    requires i < |releases|
  {
    i == 0 || releases[i - 1].tag != releases[i].tag
  }

  /** `kept` are the releases at the places `at`, in order: those where the tag changes, and all of them. */
  ghost predicate KeepsChanges(releases: seq<Release>, kept: seq<Release>, at: seq<nat>) {
    && |at| == |kept|
    && (forall j, k :: 0 <= j < k < |at| ==> at[j] < at[k])
    && (forall j :: 0 <= j < |at| ==> at[j] < |releases| && Changes(releases, at[j]) && kept[j] == releases[at[j]])
    && (forall i :: 0 <= i < |releases| && Changes(releases, i) ==> i in at)
  }

  /** Collapse is what it says: no two neighbours alike, nothing but what was there, ending and starting alike. */
  lemma {:induction false} CollapseCollapses(releases: seq<Release>)
    ensures var c := Collapse(releases);
      && (forall i :: 0 < i < |c| ==> c[i - 1].tag != c[i].tag)
      && (forall r :: r in c ==> r in releases)
      && (c == [] <==> releases == [])
      && (c != [] ==> c[|c| - 1].tag == releases[|releases| - 1].tag && c[0] == releases[0])
    ensures exists at :: KeepsChanges(releases, Collapse(releases), at)
    decreases |releases|
  {
    CollapseKeepsChanges(releases);
    hide KeepsChanges;
    if releases != [] {
      var n := |releases| - 1;
      CollapseCollapses(releases[..n]);
      hide Collapse;
      CollapseLast(releases);
      var c := Collapse(releases[..n]);
      forall r | r in Collapse(releases) ensures r in releases {
        if r in c {
          assert r in releases[..n];
        }
      }
    }
  }

  lemma {:induction false} CollapseKeepsChanges(releases: seq<Release>)
    ensures exists at :: KeepsChanges(releases, Collapse(releases), at)
    decreases |releases|
  {
    hide Collapse;
    if releases == [] {
      assert KeepsChanges(releases, Collapse(releases), []) by {
        CollapseNothing();
      }
    } else {
      var n := |releases| - 1;
      CollapseKeepsChanges(releases[..n]);
      var at :| KeepsChanges(releases[..n], Collapse(releases[..n]), at);
      CollapseLast(releases);
      KeepsOneMore(releases, Collapse(releases[..n]), at);
    }
  }

  lemma CollapseNothing()
    ensures Collapse([]) == []
  {
  }

  lemma KeepsOneMore(releases: seq<Release>, kept: seq<Release>, at: seq<nat>)
    requires releases != [] && KeepsChanges(releases[..|releases| - 1], kept, at)
    ensures var n := |releases| - 1;
      KeepsChanges(releases, kept + (if Changes(releases, n) then [releases[n]] else []), at + (if Changes(releases, n) then [n] else []))
  {
    var n := |releases| - 1;
    forall i | 0 <= i < n ensures Changes(releases, i) == Changes(releases[..n], i) {
    }
  }

  lemma CollapseLast(releases: seq<Release>)
    requires releases != []
    ensures var n := |releases| - 1;
      Collapse(releases) ==
        Collapse(releases[..n]) + (if n > 0 && releases[n - 1].tag == releases[n].tag then [] else [releases[n]])
  {
  }

  /** Tags that cannot be taken for a missing cursor or for the cursor of a repository without a release. */
  predicate Usable(tag: string) {
    tag != "" && tag != NoReleaseYet
  }

  predicate UsableTags(history: seq<Observation>) {
    forall i :: 0 <= i < |history| && history[i].Some? ==> Usable(history[i].value.tag)
  }

  lemma {:induction false} PresentUsable(history: seq<Observation>)
    requires UsableTags(history)
    ensures forall r :: r in Present(history) ==> Usable(r.tag)
    decreases |history|
  {
    if history != [] {
      PresentUsable(history[..|history| - 1]);
    }
  }

  lemma {:induction false} PresentFirst(history: seq<Observation>)
    requires history != [] && history[0].Some?
    ensures Present(history) != []
    decreases |history|
  {
    if |history| > 1 {
      PresentFirst(history[..|history| - 1]);
    }
  }

  /**
   The refinement. For any history of successful observations with usable tags, what was announced is the seen tags
   without consecutive repeats, minus the first if the first observation had a release; and the cursor is the last
   tag seen, or the sentinel if there was none.
   */
  lemma {:induction false} FoldIsExpected(history: seq<Observation>)
    requires UsableTags(history)
    ensures Correct(history)
    decreases |history|
  {
    if history != [] {
      var n := |history| - 1;
      FoldIsExpected(history[..n]);
      PresentUsable(history[..n]);
      Snoc(history[..n], history[n]);
      assert history == history[..n] + [history[n]];
      if history[n].Some? {
        SeenOneMore(history[..n], history[n].value);
      } else {
        SeenNothing(history[..n]);
      }
    }
  }

  lemma Snoc(before: seq<Observation>, seen: Observation)
    ensures Present(before + [seen]) == Present(before) + Announced(seen)
    ensures var (cursor, announced) := Fold(before);
      var (cursor', announcement) := Observe(cursor, seen);
      Fold(before + [seen]) == (cursor', announced + Announced(announcement))
  {
    assert (before + [seen])[..|before|] == before;
  }

  lemma SeenNothing(before: seq<Observation>)
    requires Correct(before) && forall r :: r in Present(before) ==> Usable(r.tag)
    ensures Correct(before + [None])
  {
    hide Fold, Present, Collapse;
    Snoc(before, None);
    EmptyHistory();
    CollapseCollapses(Present(before));
    assert Present(before) + [] == Present(before) && Fold(before).1 + [] == Fold(before).1;
    assert before != [] ==> (before + [None])[0] == before[0];
    assert Present(before) != [] ==> Present(before)[|Present(before)| - 1] in Present(before);
  }

  lemma EmptyHistory()
    ensures Present([]) == [] && Fold([]) == ("", []) && Collapse([]) == []
  {
  }

  lemma FirstRelease(r: Release)
    ensures Correct([] + [Some(r)])
  {
    hide Fold, Present, Collapse;
    EmptyHistory();
    Snoc([], Some(r));
    OneMore([], r);
    var none: seq<Release> := [];
    assert none + none == none && none + [r] == [r] && [r][1..] == none;
    assert Fold([] + [Some(r)]) == (r.tag, none);
    assert Present([] + [Some(r)]) == [r];
    assert Collapse([r]) == [r];
    assert Expected([] + [Some(r)]) == none;
    assert ExpectedCursor([] + [Some(r)]) == r.tag;
  }

  /** The first release of a repository that had none. */
  lemma FirstAfterNone(before: seq<Observation>, r: Release)
    requires before != [] && Correct(before) && before[0].None? && Present(before) == [] && Usable(r.tag)
    ensures Correct(before + [Some(r)])
  {
    hide Fold, Present, Collapse;
    Snoc(before, Some(r));
    EmptyHistory();
    OneMore([], r);
    assert (before + [Some(r)])[0] == before[0];
    var none: seq<Release> := [];
    assert none + [r] == [r];
  }

  /** A release after an earlier one. */
  lemma LaterRelease(before: seq<Observation>, r: Release)
    requires before != [] && Correct(before) && Present(before) != []
    requires (forall x :: x in Present(before) ==> Usable(x.tag)) && Usable(r.tag)
    ensures Correct(before + [Some(r)])
  {
    hide Fold, Present, Collapse, Observe;
    var (p, c) := (Present(before), Collapse(Present(before)));
    Snoc(before, Some(r));
    OneMore(p, r);
    CollapseCollapses(p);
    assert (before + [Some(r)])[0] == before[0];
    assert p[|p| - 1] in p && (c + [r])[1..] == c[1..] + [r];
    NewOrRepeated(p[|p| - 1].tag, r);
    assert Fold(before).1 + [] == Fold(before).1 && c + [] == c;
  }

  lemma NewOrRepeated(cursor: string, r: Release)
    requires Usable(cursor)
    ensures Observe(cursor, Some(r)) == (r.tag, if r.tag == cursor then None else Some(r))
  {
  }

  lemma SeenOneMore(before: seq<Observation>, r: Release)
    requires Correct(before) && (forall x :: x in Present(before) ==> Usable(x.tag)) && Usable(r.tag)
    ensures Correct(before + [Some(r)])
  {
    hide Fold, Present, Collapse, Correct;
    if before == [] {
      FirstRelease(r);
    } else {
      assert before[0].Some? ==> Present(before) != [] by {
        if before[0].Some? {
          PresentFirst(before);
        }
      }
      if Present(before) == [] {
        FirstAfterNone(before, r);
      } else {
        LaterRelease(before, r);
      }
    }
  }

  lemma OneMore(releases: seq<Release>, r: Release)
    ensures Collapse(releases + [r]) == Collapse(releases) +
      (if releases != [] && releases[|releases| - 1].tag == r.tag then [] else [r])
  {
    assert (releases + [r])[..|releases|] == releases;
  }

  predicate Over(history: seq<Observation>, tags: set<string>) {
    forall i :: 0 <= i < |history| && history[i].Some? ==> history[i].value.tag in tags
  }

  /**
   Exactly which tags the scanner can be trusted with: it is correct on every history over a set of tags if and
   only if the set contains neither the empty tag nor the sentinel.
   */
  lemma CorrectIffUsable(tags: set<string>)
    ensures (forall history :: Over(history, tags) ==> Correct(history)) <==> (forall tag :: tag in tags ==> Usable(tag))
  {
    if forall tag :: tag in tags ==> Usable(tag) {
      forall history | Over(history, tags) ensures Correct(history) {
        FoldIsExpected(history);
      }
    }
    if "" in tags {
      EmptyTagBreaks();
      assert Over([Some(Release("", "", "")), None], tags);
    }
    if NoReleaseYet in tags {
      SentinelTagBreaks();
      assert Over([None, Some(Release(NoReleaseYet, "", ""))], tags);
    }
  }

  /**
   After an observation with an empty tag, in any history, the repository looks as if it had never been scanned: the
   next observation only seeds the cursor and announces nothing, whatever it is.
   */
  lemma EmptyTagForgets(history: seq<Observation>, r: Release, next: Observation)
    requires r.tag == ""
    ensures Fold(history + [Some(r)]).0 == ""
    ensures Fold(history + [Some(r)] + [next]).1 == Fold(history + [Some(r)]).1
    ensures Fold(history + [Some(r)] + [next]).0 == match next case Some(n) => n.tag case None => NoReleaseYet
  {
    Snoc(history, Some(r));
    Snoc(history + [Some(r)], next);
    hide Fold;
    var announced := Fold(history + [Some(r)]).1;
    assert announced + [] == announced;
  }

  lemma EmptyTagBreaks()
    ensures !Correct([Some(Release("", "", "")), None])
  {
    EmptyHistory();
    Snoc([], Some(Release("", "", "")));
    Snoc([Some(Release("", "", ""))], None);
    var history: seq<Observation> := [Some(Release("", "", "")), None];
    assert history == [history[0]] + [None];
  }

  /** The boundary: were a first release tagged like the sentinel, it would not be announced. */
  lemma SentinelTagBreaks()
    ensures !Correct([None, Some(Release(NoReleaseYet, "", ""))])
  {
    var history: seq<Observation> := [None, Some(Release(NoReleaseYet, "", ""))];
    EmptyHistory();
    Snoc([], None);
    Snoc([None], Some(Release(NoReleaseYet, "", "")));
    OneMore([], Release(NoReleaseYet, "", ""));
    assert history == [None] + [history[1]];
  }
}
