/**
 * The recorded-streams page: duration and age labels, the three orderings of
 * the list (recent, popular, trending) and the shortened tags and address on
 * each card.
 */
module VodsPage {
  import opened Wrappers
  import opened JsStrings
  import opened Decimal
  import opened DurationLabel
  import HomePage
  import opened StreamsRoute

  /** A recording; `recordedAt` is the timestamp of its ISO date, in milliseconds. */
  datatype Vod = Vod(
    id: string,
    title: string,
    thumbnail: string,
    duration: int,
    views: int,
    streamer: Streamer,
    recordedAt: int,
    category: string,
    tags: seq<string>)

  /** `formatDuration(minutes)`: `Math.floor(minutes / 60)` hours and `minutes % 60` (JavaScript's remainder). */
  function FormatDuration(minutes: int): (r: string)
    ensures minutes >= 60 ==> r == HoursLabel(minutes / 60, minutes % 60)
    ensures 0 <= minutes < 60 ==> r == MinutesLabel(minutes)
    ensures minutes < 0 ==> r == MinutesLabel(JsRem(minutes, 60))
  {
    var hours := minutes / 60;
    var mins := JsRem(minutes, 60);
    if hours > 0 then HoursLabel(hours, mins) else MinutesLabel(mins)
  }

  /**
   * For a duration that is not negative the label reads back as the duration;
   * from one hour on it has an hours part and a minutes part below 60.
   */
  lemma FormatDurationRoundTrip(minutes: nat)
    ensures ParseDuration(FormatDuration(minutes)) == Some(minutes)
    ensures minutes >= 60 ==> exists h: nat, m: nat :: 1 <= h && m < 60 && FormatDuration(minutes) == HoursLabel(h, m)
  {
    if minutes >= 60 {
      ParseHoursLabel(minutes / 60, minutes % 60);
    } else {
      ParseMinutesLabel(minutes);
    }
  }

  /** The two pages print the same label for the same non-negative number of minutes. */
  lemma DurationLabelsAgree(minutes: nat)
    ensures FormatDuration(minutes) == HomePage.FormatDuration(minutes)
  {
  }

  /** The day-count branch of `formatDate`; None where the page falls back to the locale's date format. */
  function FormatDate(days: int): (r: Option<string>)
    ensures r == Some("Yesterday") <==> days == 1
    ensures r.None? <==> days >= 7
    ensures days != 1 && days < 7 ==> r == Some(IntToString(days) + " days ago")
  {
    if days == 1 then Some("Yesterday")
    else if days < 7 then
      var text := IntToString(days) + " days ago";
      assert text[0] != 'Y';
      Some(text)
    else None
  }

  // The orderings.

  datatype SortKey = ByRecordedAt | ByViews

  function Key(v: Vod, k: SortKey): int {
    match k
    case ByRecordedAt => v.recordedAt
    case ByViews => v.views
  }

  /** Non-increasing in the key: what the comparator `(a, b) => key(b) - key(a)` asks for. */
  predicate SortedDesc(s: seq<Vod>, k: SortKey) {
    forall i, j :: 0 <= i < j < |s| ==> Key(s[i], k) >= Key(s[j], k)
  }

  /** The recordings with a given key value, in their order in `s`. */
  function WithKey(s: seq<Vod>, k: SortKey, value: int): seq<Vod> {
    if s == [] then []
    else (if Key(s[0], k) == value then [s[0]] else []) + WithKey(s[1..], k, value)
  }

  /** Every key in `s` is at most `bound`. */
  predicate AtMost(s: seq<Vod>, k: SortKey, bound: int) {
    forall i :: 0 <= i < |s| ==> Key(s[i], k) <= bound
  }

  lemma ConsSorted(y: Vod, t: seq<Vod>, k: SortKey)
    requires SortedDesc(t, k) && AtMost(t, k, Key(y, k))
    ensures SortedDesc([y] + t, k)
  {
    var r := [y] + t;
    forall i, j | 0 <= i < j < |r| ensures Key(r[i], k) >= Key(r[j], k) {
      assert r[j] == t[j - 1];
      if i > 0 {
        assert r[i] == t[i - 1];
      }
    }
  }

  lemma ConsAtMost(y: Vod, t: seq<Vod>, k: SortKey, bound: int)
    requires Key(y, k) <= bound && AtMost(t, k, bound)
    ensures AtMost([y] + t, k, bound)
  {
    var r := [y] + t;
    forall i | 0 <= i < |r| ensures Key(r[i], k) <= bound {
      if i > 0 {
        assert r[i] == t[i - 1];
      }
    }
  }

  lemma SortedTail(s: seq<Vod>, k: SortKey)
    requires SortedDesc(s, k) && s != []
    ensures SortedDesc(s[1..], k) && AtMost(s[1..], k, Key(s[0], k))
  {
  }

  /** Put `x` before the first element whose key is not greater, so `x` stays ahead of equal keys. */
  function Insert(x: Vod, s: seq<Vod>, k: SortKey): seq<Vod> {
    if s == [] || Key(s[0], k) <= Key(x, k) then [x] + s else [s[0]] + Insert(x, s[1..], k)
  }

  /** An upper bound on every key, the inserted one included, bounds the result. */
  lemma {:induction false} InsertAtMost(x: Vod, s: seq<Vod>, k: SortKey, bound: int)
    requires AtMost(s, k, bound) && Key(x, k) <= bound
    ensures AtMost(Insert(x, s, k), k, bound)
  {
    if s == [] || Key(s[0], k) <= Key(x, k) {
      ConsAtMost(x, s, k, bound);
    } else {
      InsertAtMost(x, s[1..], k, bound);
      ConsAtMost(s[0], Insert(x, s[1..], k), k, bound);
    }
  }

  /** Inserting into a non-increasing list keeps it non-increasing. */
  lemma {:induction false} InsertSorted(x: Vod, s: seq<Vod>, k: SortKey)
    requires SortedDesc(s, k)
    ensures SortedDesc(Insert(x, s, k), k)
  {
    if s == [] || Key(s[0], k) <= Key(x, k) {
      if s != [] {
        SortedTail(s, k);
        ConsAtMost(s[0], s[1..], k, Key(x, k));
        assert s == [s[0]] + s[1..];
      }
      ConsSorted(x, s, k);
    } else {
      SortedTail(s, k);
      InsertSorted(x, s[1..], k);
      InsertAtMost(x, s[1..], k, Key(s[0], k));
      ConsSorted(s[0], Insert(x, s[1..], k), k);
    }
  }

  /** Inserting adds exactly the one element. */
  lemma {:induction false} InsertPermutes(x: Vod, s: seq<Vod>, k: SortKey)
    ensures multiset(Insert(x, s, k)) == multiset(s) + multiset{x}
  {
    if s != [] && Key(s[0], k) > Key(x, k) {
      InsertPermutes(x, s[1..], k);
      assert s == [s[0]] + s[1..];
    }
  }

  lemma WithKeyCons(y: Vod, t: seq<Vod>, k: SortKey, value: int)
    ensures WithKey([y] + t, k, value) == (if Key(y, k) == value then [y] else []) + WithKey(t, k, value)
  {
    assert ([y] + t)[0] == y && ([y] + t)[1..] == t;
  }

  /** Inserting `x` adds it at the head of the recordings that share its key, and changes no other key's recordings. */
  lemma {:induction false} InsertWithKey(x: Vod, s: seq<Vod>, k: SortKey, value: int)
    ensures WithKey(Insert(x, s, k), k, value) ==
      (if Key(x, k) == value then [x] + WithKey(s, k, value) else WithKey(s, k, value))
  {
    if s == [] || Key(s[0], k) <= Key(x, k) {
      assert Insert(x, s, k) == [x] + s;
      WithKeyCons(x, s, k, value);
    } else {
      var rest := Insert(x, s[1..], k);
      assert Insert(x, s, k) == [s[0]] + rest;
      WithKeyCons(s[0], rest, k, value);
      InsertWithKey(x, s[1..], k, value);
      var head := if Key(s[0], k) == value then [s[0]] else [];
      assert WithKey(s, k, value) == head + WithKey(s[1..], k, value);
      if Key(x, k) == value {
        assert head == [];
        assert WithKey(Insert(x, s, k), k, value) == [x] + WithKey(s[1..], k, value);
      } else {
        assert WithKey(Insert(x, s, k), k, value) == head + WithKey(s[1..], k, value);
      }
    }
  }

  /** A sort in non-increasing key order: `[...vods].sort(...)`. */
  function SortDesc(s: seq<Vod>, k: SortKey): (r: seq<Vod>)
    ensures SortedDesc(r, k)
    ensures multiset(r) == multiset(s)
  {
    if s == [] then []
    else
      var sorted := SortDesc(s[1..], k);
      InsertSorted(s[0], sorted, k);
      InsertPermutes(s[0], sorted, k);
      assert s == [s[0]] + s[1..];
      Insert(s[0], sorted, k)
  }

  /** The sort is stable: recordings with equal keys keep their order. */
  lemma {:induction false} SortDescStable(s: seq<Vod>, k: SortKey)
    ensures forall value :: WithKey(SortDesc(s, k), k, value) == WithKey(s, k, value)
  {
    if s != [] {
      SortDescStable(s[1..], k);
      forall value ensures WithKey(SortDesc(s, k), k, value) == WithKey(s, k, value) {
        InsertWithKey(s[0], SortDesc(s[1..], k), k, value);
      }
    }
  }

  datatype SortedVods = SortedVods(recent: seq<Vod>, popular: seq<Vod>, trending: seq<Vod>)

  /**
   * `sortedVods`: three sorted copies; the input list is a value and is left as
   * it was. Each copy is a permutation of the list that keeps recordings with
   * equal keys in their original order.
   */
  function SortVods(vods: seq<Vod>): (r: SortedVods)
    ensures SortedDesc(r.recent, ByRecordedAt) && multiset(r.recent) == multiset(vods)
    ensures SortedDesc(r.popular, ByViews) && multiset(r.popular) == multiset(vods)
    ensures r.trending == r.popular
    ensures forall t :: WithKey(r.recent, ByRecordedAt, t) == WithKey(vods, ByRecordedAt, t)
    ensures forall v :: WithKey(r.popular, ByViews, v) == WithKey(vods, ByViews, v)
  {
    SortDescStable(vods, ByRecordedAt);
    SortDescStable(vods, ByViews);
    SortedVods(SortDesc(vods, ByRecordedAt), SortDesc(vods, ByViews), SortDesc(vods, ByViews))
  }

  // The card.

  /** `tags.slice(0, 3)`: at most the first three tags, in order. */
  function ShownTags(tags: seq<string>): (r: seq<string>)
    ensures r <= tags
    ensures |r| == if |tags| < 3 then |tags| else 3
  {
    if |tags| < 3 then tags else tags[..3]
  }

  /** `address.slice(0, 6) + "..." + address.slice(-4)` */
  function ShortAddress(address: string): (r: string)
    ensures var head := if |address| < 6 then |address| else 6;
      var tail := if |address| < 4 then |address| else 4;
      r == address[..head] + "..." + address[|address| - tail..]
  {
    Slice(address, 0, 6) + "..." + Slice(address, -4, |address|)
  }
}
