/** The generation history the session keeps: newest first, capped at 50
    entries (components/PromptGenerator.tsx). */
module History {
  import opened Wrappers
  import opened Records

  const HistoryLimit := 50

  function Min(a: int, b: int): int {
    if a <= b then a else b
  }

  /** `[item, ...history].slice(0, 50)`: the new item first, followed by as
      many of the older entries, in their order, as fit under the cap. */
  function Prepend(item: HistoryItem, history: seq<HistoryItem>): (r: seq<HistoryItem>)
    ensures |r| == Min(HistoryLimit, |history| + 1) && |r| <= HistoryLimit
    ensures r[0] == item
    ensures forall k :: 1 <= k < |r| ==> r[k] == history[k - 1]
  {
    ([item] + history)[..Min(HistoryLimit, |history| + 1)]
  }

  /** The history after recording `items` one after another. */
  function PrependAll(history: seq<HistoryItem>, items: seq<HistoryItem>): seq<HistoryItem>
    decreases |items|
  {
    if items == [] then history
    else Prepend(items[|items| - 1], PrependAll(history, items[..|items| - 1]))
  }

  function Reverse<T>(s: seq<T>): (r: seq<T>)
    ensures |r| == |s|
    ensures forall k :: 0 <= k < |s| ==> r[k] == s[|s| - 1 - k]
  {
    if s == [] then [] else [s[|s| - 1]] + Reverse(s[..|s| - 1])
  }

  /** Recording several items onto a history within the cap keeps the
      newest 50 of everything, newest first: the recorded items in reverse
      order, then the old history. */
  lemma {:induction false} PrependAllKeepsNewest(history: seq<HistoryItem>, items: seq<HistoryItem>)
    requires |history| <= HistoryLimit
    ensures PrependAll(history, items) == (Reverse(items) + history)[..Min(HistoryLimit, |items| + |history|)]
  {
    if items == [] {
      assert history[..|history|] == history;
    } else {
      var init, x := items[..|items| - 1], items[|items| - 1];
      PrependAllKeepsNewest(history, init);
      var older := (Reverse(init) + history)[..Min(HistoryLimit, |init| + |history|)];
      var all := Reverse(items) + history;
      assert Reverse(items) == [x] + Reverse(init);
      var r := Prepend(x, older);
      var n := Min(HistoryLimit, |items| + |history|);
      assert |r| == n;
      forall k | 0 <= k < n ensures r[k] == all[..n][k] {
        if k > 0 {
          assert r[k] == older[k - 1] == (Reverse(init) + history)[k - 1];
        }
      }
    }
  }

  /** Recording 51 generations in a row onto an empty history leaves
      exactly 50 entries: the last 50 recorded, most recent first. */
  lemma FiftyOneRecorded(items: seq<HistoryItem>)
    requires |items| == HistoryLimit + 1
    ensures var h := PrependAll([], items);
      |h| == HistoryLimit && forall k :: 0 <= k < HistoryLimit ==> h[k] == items[HistoryLimit - k]
  {
    PrependAllKeepsNewest([], items);
    assert Reverse(items) + [] == Reverse(items);
  }

  /** `history.filter(item => item.id !== id)`. */
  function RemoveId(history: seq<HistoryItem>, id: string): (r: seq<HistoryItem>)
    ensures |r| <= |history|
    ensures forall k :: 0 <= k < |r| ==> r[k].id != id
    ensures forall x :: x in r <==> x in history && x.id != id
    ensures (forall k :: 0 <= k < |history| ==> history[k].id != id) ==> r == history
  {
    if history == [] then []
    else
      var rest := RemoveId(history[1..], id);
      assert history == [history[0]] + history[1..];
      if history[0].id == id then rest else [history[0]] + rest
  }

  /** Filtering keeps the relative order of what it keeps: it distributes
      over concatenation. */
  lemma {:induction false} RemoveIdConcat(a: seq<HistoryItem>, b: seq<HistoryItem>, id: string)
    ensures RemoveId(a + b, id) == RemoveId(a, id) + RemoveId(b, id)
  {
    if a == [] {
      assert a + b == b;
    } else {
      assert (a + b)[1..] == a[1..] + b;
      RemoveIdConcat(a[1..], b, id);
    }
  }

  /** The history read once at start-up: an absent or empty slot and an
      unparsable one both give the empty history; a parsed value is used as
      it is, without validation. */
  function LoadHistory(stored: Option<string>, parse: string -> Option<seq<HistoryItem>>)
    : (r: seq<HistoryItem>)
    ensures stored.None? || stored == Some("") ==> r == []
    ensures stored.Some? && stored.value != "" && parse(stored.value).None? ==> r == []
    ensures stored.Some? && stored.value != "" && parse(stored.value).Some? ==> r == parse(stored.value).value
  {
    match stored
    case None => []
    case Some(text) =>
      if text == "" then []
      else match parse(text)
        case None => []
        case Some(h) => h
  }
}
