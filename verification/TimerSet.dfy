/** The ordered set of (expiration, pointer) pairs behind `TimerQueue::timers_`. */
module TimerSets {

  /** Nanoseconds since the clock epoch. */
  type Time = int

  const UINTPTR_MAX: nat := 0xFFFF_FFFF_FFFF_FFFF

  datatype Entry = Entry(when: Time, timer: nat)

  /** `std::pair` order: expiration first, pointer value second. */
  predicate Less(e: Entry, f: Entry) {
    e.when < f.when || (e.when == f.when && e.timer < f.timer)
  }

  /** A `std::set<Entry>` in iteration order. */
  predicate Sorted(s: seq<Entry>) {
    forall i, j :: 0 <= i < j < |s| ==> Less(s[i], s[j])
  }

  /** `std::set::lower_bound` as a position: where the first element not below `e` stands. */
  function LowerBound(s: seq<Entry>, e: Entry): (k: nat)
    ensures k <= |s|
    ensures forall i :: 0 <= i < k ==> Less(s[i], e)
    ensures k < |s| ==> !Less(s[k], e)
  {
    if s == [] || !Less(s[0], e) then 0 else 1 + LowerBound(s[1..], e)
  }

  function Insert(s: seq<Entry>, e: Entry): seq<Entry> {
    if e in s then s else s[..LowerBound(s, e)] + [e] + s[LowerBound(s, e)..]
  }

  function Erase(s: seq<Entry>, e: Entry): seq<Entry> {
    var k := LowerBound(s, e);
    if k < |s| && s[k] == e then s[..k] + s[k + 1..] else s
  }

  /** Every element from the lower bound on lies above an absent `e`. */
  lemma AboveLowerBound(s: seq<Entry>, e: Entry, i: nat)
    requires Sorted(s) && e !in s && LowerBound(s, e) <= i < |s|
    ensures Less(e, s[i])
  {
    var k := LowerBound(s, e);
    assert s[k] in s;
    assert k < i ==> Less(s[k], s[i]);
  }

  /** Insertion adds exactly `e`. */
  lemma InsertMembers(s: seq<Entry>, e: Entry)
    requires e !in s
    ensures forall x :: x in Insert(s, e) <==> x in s || x == e
  {
    var k := LowerBound(s, e);
    assert s == s[..k] + s[k..];
  }

  /** Insertion keeps the order, adds exactly `e`, and moves the front only for a new minimum. */
  lemma InsertCorrect(s: seq<Entry>, e: Entry)
    requires Sorted(s) && e !in s
    ensures Sorted(Insert(s, e)) && |Insert(s, e)| == |s| + 1
    ensures forall x :: x in Insert(s, e) <==> x in s || x == e
    ensures Insert(s, e)[0] == if s == [] || Less(e, s[0]) then e else s[0]
  {
    InsertMembers(s, e);
    var k := LowerBound(s, e);
    var r := Insert(s, e);
    forall i, j | 0 <= i < j < |r| ensures Less(r[i], r[j]) {
      if i < k && k < j { assert Less(s[i], s[j - 1]); }
      if i == k { AboveLowerBound(s, e, j - 1); }
      if k < i { assert Less(s[i - 1], s[j - 1]); }
    }
    if s != [] && k == 0 { AboveLowerBound(s, e, 0); }
  }

  /** Erasing a member keeps the order and removes exactly that member. */
  lemma EraseCorrect(s: seq<Entry>, e: Entry)
    requires Sorted(s) && e in s
    ensures Sorted(Erase(s, e)) && |Erase(s, e)| == |s| - 1
    ensures forall x :: x in Erase(s, e) <==> x in s && x != e
    ensures Erase(s, e) != [] ==> !Less(Erase(s, e)[0], s[0])
  {
    var k := LowerBound(s, e);
    var j :| 0 <= j < |s| && s[j] == e;
    assert j == k;
    var r := Erase(s, e);
    assert forall i :: 0 <= i < |r| ==> r[i] == if i < k then s[i] else s[i + 1];
    forall x ensures x in r <==> x in s && x != e {
      if x in s && x != e {
        var i :| 0 <= i < |s| && s[i] == x;
        assert r[if i < k then i else i - 1] == x;
      }
    }
  }

  /** Positions below the sentry `(now, UINTPTR_MAX)` are due, the others are not. */
  lemma SentryPosition(s: seq<Entry>, now: Time, i: nat)
    requires Sorted(s) && i < |s| && forall e :: e in s ==> e.timer < UINTPTR_MAX
    ensures s[i].when <= now <==> i < LowerBound(s, Entry(now, UINTPTR_MAX))
  {
    var k := LowerBound(s, Entry(now, UINTPTR_MAX));
    if k <= i {
      assert s[k] in s;
      assert k < i ==> Less(s[k], s[i]);
    }
  }

  lemma DueFront(s: seq<Entry>, now: Time)
    requires Sorted(s) && forall e :: e in s ==> e.timer < UINTPTR_MAX
    ensures forall e :: e in s[..LowerBound(s, Entry(now, UINTPTR_MAX))] <==> e in s && e.when <= now
  {
    var k := LowerBound(s, Entry(now, UINTPTR_MAX));
    forall e | e in s && e.when <= now ensures e in s[..k] {
      var i :| 0 <= i < |s| && s[i] == e;
      SentryPosition(s, now, i);
      assert s[..k][i] == e;
    }
  }

  lemma LaterOnly(s: seq<Entry>, now: Time)
    requires Sorted(s) && forall e :: e in s ==> e.timer < UINTPTR_MAX
    ensures forall e :: e in s[LowerBound(s, Entry(now, UINTPTR_MAX))..] ==> now < e.when
  {
    var k := LowerBound(s, Entry(now, UINTPTR_MAX));
    forall i | k <= i < |s| ensures now < s[i].when {
      SentryPosition(s, now, i);
    }
  }

  lemma LaterBack(s: seq<Entry>, now: Time)
    requires Sorted(s) && forall e :: e in s ==> e.timer < UINTPTR_MAX
    ensures forall e :: e in s[LowerBound(s, Entry(now, UINTPTR_MAX))..] <==> e in s && now < e.when
  {
    LaterOnly(s, now);
    DueFront(s, now);
    var k := LowerBound(s, Entry(now, UINTPTR_MAX));
    assert s == s[..k] + s[k..];
  }

  /**
    The sentry splits the set exactly into the entries due at `now` and the later ones,
    because no object sits at the largest address.
   */
  lemma SentrySplits(s: seq<Entry>, now: Time)
    requires Sorted(s) && forall e :: e in s ==> e.timer < UINTPTR_MAX
    ensures var k := LowerBound(s, Entry(now, UINTPTR_MAX));
            && Sorted(s[..k]) && Sorted(s[k..])
            && (forall e :: e in s[..k] <==> e in s && e.when <= now)
            && (forall e :: e in s[k..] <==> e in s && now < e.when)
  {
    DueFront(s, now);
    LaterBack(s, now);
  }
}
