/**
 * The request logic of `UserPage.get`: fetch the timeline (a failure counts as
 * an empty timeline), pick the page's user, and walk the entries collecting one
 * haiku per entry whose text yields at least one match.
 *
 * The external collaborators are parameters: `getUserTimeline` stands for
 * `twitter.Api.GetUserTimeline`, `findHaikus` for `haikufinder.find_haikus`
 * and `fromTimestamp` for `datetime.date.fromtimestamp`.
 */
module UserPage {
  import opened Wrappers
  import opened Twitter

  /** The `count` argument of the timeline request. */
  const TimelineCount: nat := 300

  /** One template record: the first match's lines, the entry it came from and its date. */
  datatype Haiku = Haiku(lines: seq<string>, entry: Entry, date: Date)

  /** The template variables the handler renders. */
  datatype PageVars = PageVars(user: User, haikus: seq<Haiku>)

  /** The `except` branch: any failure of the fetch leaves an empty timeline. */
  function TimelineOrEmpty(fetch: TimelineFetch): seq<Entry>
  {
    match fetch
    case Fetched(entries) => entries
    case Failed => []
  }

  /** The stand-in user built when there are no entries. */
  function PlaceholderUser(screenName: string): User
  {
    User(None, Some(screenName), Some(screenName))
  }

  /** The record an entry with at least one match produces. */
  function HaikuOf(e: Entry, findHaikus: string -> seq<seq<string>>, fromTimestamp: int -> Date): Haiku
    requires findHaikus(e.text) != []
  {
    Haiku(findHaikus(e.text)[0], e, fromTimestamp(e.createdAtInSeconds))
  }

  /**
   * The haikus of a timeline, as the loop builds them: the value after the walk
   * over `timeline` is that over all but its last entry, extended by the last
   * entry's record when that entry matches.
   */
  function CollectHaikus(timeline: seq<Entry>, findHaikus: string -> seq<seq<string>>,
                         fromTimestamp: int -> Date): (hs: seq<Haiku>)
    ensures |hs| <= |timeline|
    ensures forall h :: h in hs ==>
      h.entry in timeline && findHaikus(h.entry.text) != [] && h == HaikuOf(h.entry, findHaikus, fromTimestamp)
    decreases |timeline|
  {
    if timeline == [] then []
    else
      var init := CollectHaikus(timeline[..|timeline| - 1], findHaikus, fromTimestamp);
      var last := timeline[|timeline| - 1];
      if findHaikus(last.text) != [] then init + [HaikuOf(last, findHaikus, fromTimestamp)] else init
  }

  /** `UserPage.get` up to the rendering of the template. */
  method GetUserPage(screenName: string, getUserTimeline: (string, nat) -> TimelineFetch,
                     findHaikus: string -> seq<seq<string>>, fromTimestamp: int -> Date)
    returns (vars: PageVars)
    ensures var timeline := TimelineOrEmpty(getUserTimeline(screenName, TimelineCount));
      && (timeline != [] ==> vars.user == timeline[0].user)
      && (timeline == [] ==> vars.user == PlaceholderUser(screenName))
      && vars.haikus == CollectHaikus(timeline, findHaikus, fromTimestamp)
    ensures getUserTimeline(screenName, TimelineCount).Failed? ==>
      vars == PageVars(PlaceholderUser(screenName), [])
  {
    var timeline: seq<Entry>;
    match getUserTimeline(screenName, TimelineCount) {
      case Fetched(entries) => timeline := entries;
      case Failed => timeline := [];
    }

    var user: User;
    if timeline != [] {
      user := timeline[0].user;
    } else {
      user := PlaceholderUser(screenName);
    }

    var haikus: seq<Haiku> := [];
    var i := 0;
    while i < |timeline|
      invariant 0 <= i <= |timeline|
      invariant haikus == CollectHaikus(timeline[..i], findHaikus, fromTimestamp)
    {
      var entry := timeline[i];
      var matches := findHaikus(entry.text);
      if matches != [] {
        haikus := haikus + [HaikuOf(entry, findHaikus, fromTimestamp)];
      }
      assert timeline[..i + 1][..i] == timeline[..i];
      i := i + 1;
    }
    assert timeline[..i] == timeline;

    vars := PageVars(user, haikus);
  }

  /** The positions of the timeline entries that contribute a haiku, in timeline order. */
  function MatchingIndices(timeline: seq<Entry>, findHaikus: string -> seq<seq<string>>): seq<nat>
    decreases |timeline|
  {
    if timeline == [] then []
    else
      var n := |timeline| - 1;
      MatchingIndices(timeline[..n], findHaikus) + (if findHaikus(timeline[n].text) != [] then [n] else [])
  }

  /**
   * The contributing positions are strictly increasing, lie in the timeline, and
   * are exactly the positions whose entry text yields at least one match.
   */
  lemma {:induction false} MatchingIndicesSpec(timeline: seq<Entry>, findHaikus: string -> seq<seq<string>>)
    ensures var ix := MatchingIndices(timeline, findHaikus);
      && (forall a, b :: 0 <= a < b < |ix| ==> ix[a] < ix[b])
      && (forall k :: 0 <= k < |ix| ==> ix[k] < |timeline|)
      && (forall i :: 0 <= i < |timeline| ==> (i in ix <==> findHaikus(timeline[i].text) != []))
    decreases |timeline|
  {
    if timeline != [] {
      var n := |timeline| - 1;
      var init := timeline[..n];
      MatchingIndicesSpec(init, findHaikus);
      var ix0 := MatchingIndices(init, findHaikus);
      var ix := MatchingIndices(timeline, findHaikus);
      assert ix == ix0 + (if findHaikus(timeline[n].text) != [] then [n] else []);
      forall i | 0 <= i < |timeline|
        ensures i in ix <==> findHaikus(timeline[i].text) != []
      {
        if i < n {
          assert init[i] == timeline[i];
        } else {
          assert n !in ix0;
        }
      }
    }
  }

  /**
   * The k-th haiku is the record of the k-th contributing entry: together with
   * MatchingIndicesSpec this pins down the whole output, its length, contents and order.
   */
  lemma {:induction false} CollectHaikusAt(timeline: seq<Entry>, findHaikus: string -> seq<seq<string>>,
                                           fromTimestamp: int -> Date)
    ensures var hs := CollectHaikus(timeline, findHaikus, fromTimestamp);
      var ix := MatchingIndices(timeline, findHaikus);
      && |hs| == |ix|
      && forall k :: 0 <= k < |ix| ==>
           ix[k] < |timeline| && findHaikus(timeline[ix[k]].text) != []
           && hs[k] == HaikuOf(timeline[ix[k]], findHaikus, fromTimestamp)
    decreases |timeline|
  {
    MatchingIndicesSpec(timeline, findHaikus);
    if timeline != [] {
      var n := |timeline| - 1;
      var init := timeline[..n];
      CollectHaikusAt(init, findHaikus, fromTimestamp);
      MatchingIndicesSpec(init, findHaikus);
      var ix0 := MatchingIndices(init, findHaikus);
      forall k | 0 <= k < |ix0|
        ensures timeline[ix0[k]] == init[ix0[k]]
      {
      }
    }
  }

  /** The positions of the entries whose text yields at least one match. */
  ghost function MatchingPositions(timeline: seq<Entry>, findHaikus: string -> seq<seq<string>>): set<nat>
  {
    set i: nat | i < |timeline| && findHaikus(timeline[i].text) != []
  }

  /** The number of haikus is exactly the number of entries whose match list is non-empty. */
  lemma {:induction false} CollectHaikusCount(timeline: seq<Entry>, findHaikus: string -> seq<seq<string>>,
                                              fromTimestamp: int -> Date)
    ensures |CollectHaikus(timeline, findHaikus, fromTimestamp)| == |MatchingPositions(timeline, findHaikus)|
    decreases |timeline|
  {
    if timeline == [] {
      assert MatchingPositions(timeline, findHaikus) == {};
    } else {
      var n := |timeline| - 1;
      var init := timeline[..n];
      CollectHaikusCount(init, findHaikus, fromTimestamp);
      var whole, part := MatchingPositions(timeline, findHaikus), MatchingPositions(init, findHaikus);
      var extra: set<nat> := if findHaikus(timeline[n].text) != [] then {n} else {};
      forall i: nat
        ensures i in whole <==> i in part || i in extra
      {
        if i < n {
          assert init[i] == timeline[i];
        }
      }
      assert whole == part + extra;
      assert n !in part;
    }
  }

  /** Walking two timelines one after the other collects the two walks' haikus in order. */
  lemma {:induction false} CollectHaikusAppend(a: seq<Entry>, b: seq<Entry>,
                                               findHaikus: string -> seq<seq<string>>, fromTimestamp: int -> Date)
    ensures CollectHaikus(a + b, findHaikus, fromTimestamp)
         == CollectHaikus(a, findHaikus, fromTimestamp) + CollectHaikus(b, findHaikus, fromTimestamp)
    decreases |b|
  {
    if b == [] {
      assert a + b == a;
    } else {
      var n := |b| - 1;
      assert (a + b)[..|a + b| - 1] == a + b[..n];
      assert (a + b)[|a + b| - 1] == b[n];
      CollectHaikusAppend(a, b[..n], findHaikus, fromTimestamp);
    }
  }

  /** An entry whose text yields no match contributes nothing, wherever it stands. */
  lemma NoMatchContributesNothing(before: seq<Entry>, e: Entry, after: seq<Entry>,
                                  findHaikus: string -> seq<seq<string>>, fromTimestamp: int -> Date)
    requires findHaikus(e.text) == []
    ensures CollectHaikus(before + [e] + after, findHaikus, fromTimestamp)
         == CollectHaikus(before + after, findHaikus, fromTimestamp)
  {
    CollectHaikusAppend(before + [e], after, findHaikus, fromTimestamp);
    CollectHaikusAppend(before, [e], findHaikus, fromTimestamp);
    CollectHaikusAppend(before, after, findHaikus, fromTimestamp);
    assert [e][..0] == [];
  }
}
