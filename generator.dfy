/**
 * The schedule generator of generateur_json.py: a catalogue of albums built
 * by `add` calls that skip (artiste, album) pairs already present, shuffled,
 * cut or padded to exactly 365 entries, and keyed by consecutive dates from
 * 2026-01-01 on.
 */
module Generator {
  import opened Wrappers
  import opened Decimal
  import opened Calendar

  /** One album of the schedule, with the fields of the generated JSON. */
  datatype Entry = Entry(artiste: string, album: string, genre: string, tag: string,
                         ecoute: bool, note: Option<int>, avis: string)

  /** The arguments of one `add` call. */
  datatype AddCall = AddCall(artiste: string, album: string, genre: string, tag: string)

  /** One date-keyed item of the `planning` dictionary. */
  datatype Slot = Slot(key: string, entry: Entry)

  const DefaultTag := "Découverte"
  const TargetCount := 365
  const StartYear := 2026
  const StartDate := Date(StartYear, 1, 1)
  const FreeAlbum := "Choisis un album !"
  const JokerGenre := "Joker"
  const FreeTag := "Libre"

  /** The record `add` appends: not yet listened to, no rating, empty review. */
  function NewEntry(artiste: string, album: string, genre: string, tag: string): Entry
  {
    Entry(artiste, album, genre, tag, false, None, "")
  }

  function PlaceholderArtist(k: nat): string
  {
    "Journée Libre " + NatToString(k)
  }

  /** The k-th "free day" entry used to pad a short catalogue. */
  function Placeholder(k: nat): Entry
  {
    NewEntry(PlaceholderArtist(k), FreeAlbum, JokerGenre, FreeTag)
  }

  predicate SamePair(e: Entry, artiste: string, album: string)
  {
    e.artiste == artiste && e.album == album
  }

  predicate HasPair(db: seq<Entry>, artiste: string, album: string)
  {
    exists i :: 0 <= i < |db| && SamePair(db[i], artiste, album)
  }

  /** The catalogue invariant: no two entries share an (artiste, album) pair. */
  ghost predicate NoDuplicatePairs(db: seq<Entry>)
  {
    forall i, j :: 0 <= i < j < |db| ==> !SamePair(db[j], db[i].artiste, db[i].album)
  }

  /** The catalogue after `add(artiste, album, genre, tag)`. */
  function Added(db: seq<Entry>, artiste: string, album: string, genre: string, tag: string): (r: seq<Entry>)
    ensures HasPair(r, artiste, album)
    ensures |db| <= |r| <= |db| + 1 && r[..|db|] == db
    ensures NoDuplicatePairs(db) ==> NoDuplicatePairs(r)
  {
    if HasPair(db, artiste, album) then db
    else
      var r := db + [NewEntry(artiste, album, genre, tag)];
      assert SamePair(r[|db|], artiste, album);
      r
  }

  /** A pair already present leaves the catalogue as it is; a new pair is appended as a fresh record. */
  lemma AddedCases(db: seq<Entry>, artiste: string, album: string, genre: string, tag: string)
    ensures HasPair(db, artiste, album) ==> Added(db, artiste, album, genre, tag) == db
    ensures !HasPair(db, artiste, album) ==>
      Added(db, artiste, album, genre, tag) == db + [Entry(artiste, album, genre, tag, false, None, "")]
  {
  }

  /** Adding the same pair twice gives the same catalogue as adding it once, whatever genre and tag the second call carries. */
  lemma AddedIdempotent(db: seq<Entry>, artiste: string, album: string, genre: string, tag: string,
                        genre2: string, tag2: string)
    ensures Added(Added(db, artiste, album, genre, tag), artiste, album, genre2, tag2)
         == Added(db, artiste, album, genre, tag)
  {
  }

  /** The catalogue after a sequence of `add` calls, in order. */
  function AddAll(db: seq<Entry>, calls: seq<AddCall>): (r: seq<Entry>)
    ensures |db| <= |r| && r[..|db|] == db
    decreases |calls|
  {
    if |calls| == 0 then db
    else
      var c := calls[|calls| - 1];
      Added(AddAll(db, calls[..|calls| - 1]), c.artiste, c.album, c.genre, c.tag)
  }

  /** Whatever the calls, the catalogue keeps no duplicate (artiste, album) pair. */
  lemma {:induction false} AddAllNoDuplicates(db: seq<Entry>, calls: seq<AddCall>)
    requires NoDuplicatePairs(db)
    ensures NoDuplicatePairs(AddAll(db, calls))
    decreases |calls|
  {
    if |calls| > 0 {
      AddAllNoDuplicates(db, calls[..|calls| - 1]);
    }
  }

  /** Every requested pair is in the catalogue, and every new record comes from some call. */
  lemma {:induction false} AddAllContents(db: seq<Entry>, calls: seq<AddCall>)
    ensures forall c :: c in calls ==> HasPair(AddAll(db, calls), c.artiste, c.album)
    ensures forall i :: |db| <= i < |AddAll(db, calls)| ==>
      exists c :: c in calls && AddAll(db, calls)[i] == NewEntry(c.artiste, c.album, c.genre, c.tag)
    decreases |calls|
  {
    if |calls| > 0 {
      var front, c := calls[..|calls| - 1], calls[|calls| - 1];
      AddAllContents(db, front);
      var before := AddAll(db, front);
      var after := AddAll(db, calls);
      assert after == Added(before, c.artiste, c.album, c.genre, c.tag);
      forall d | d in calls
        ensures HasPair(after, d.artiste, d.album)
      {
        if d != c {
          assert d in front;
          var i :| 0 <= i < |before| && SamePair(before[i], d.artiste, d.album);
          assert after[i] == before[i];
        }
      }
      forall i | |db| <= i < |after|
        ensures exists d :: d in calls && after[i] == NewEntry(d.artiste, d.album, d.genre, d.tag)
      {
        if i < |before| {
          var d :| d in front && before[i] == NewEntry(d.artiste, d.album, d.genre, d.tag);
          assert after[i] == before[i];
          var m :| 0 <= m < |front| && front[m] == d;
          assert calls[m] == d;
          assert d in calls;
        } else {
          assert after[i] == NewEntry(c.artiste, c.album, c.genre, c.tag);
          assert c in calls;
        }
      }
    } else {
      assert AddAll(db, calls) == db;
    }
  }

  /** A permutation of 0..n-1: what `random.shuffle` picks. */
  ghost predicate IsPermutation(p: seq<nat>, n: nat)
  {
    |p| == n
    && (forall i :: 0 <= i < n ==> p[i] < n)
    && (forall i, j :: 0 <= i < j < n ==> p[i] != p[j])
    && (forall k :: 0 <= k < n ==> k in p)
  }

  /** The list reordered so that position i holds what was at position p[i]. */
  function Permuted(s: seq<Entry>, p: seq<nat>): seq<Entry>
    requires IsPermutation(p, |s|)
  {
    seq(|s|, i requires 0 <= i < |s| => s[p[i]])
  }

  /** Shuffling neither adds nor drops an entry, so the catalogue stays free of duplicates. */
  lemma PermutedKeepsEntries(s: seq<Entry>, p: seq<nat>)
    requires IsPermutation(p, |s|)
    ensures |Permuted(s, p)| == |s|
    ensures forall e :: e in Permuted(s, p) <==> e in s
    ensures NoDuplicatePairs(s) ==> NoDuplicatePairs(Permuted(s, p))
  {
    var r := Permuted(s, p);
    forall e | e in s
      ensures e in r
    {
      var k :| 0 <= k < |s| && s[k] == e;
      assert k in p;
      var i :| 0 <= i < |s| && p[i] == k;
      assert r[i] == e;
    }
    if NoDuplicatePairs(s) {
      forall i, j | 0 <= i < j < |r|
        ensures !SamePair(r[j], r[i].artiste, r[i].album)
      {
        if p[i] < p[j] {
        } else {
          assert p[j] < p[i];
        }
      }
    }
  }

  ghost predicate NumberedFrom(artiste: string, c: nat)
  {
    exists k: nat :: c <= k && artiste == PlaceholderArtist(k)
  }

  /** Artistes in the catalogue that are placeholders numbered c or more: finite, so the padding loop ends. */
  ghost function PlaceholdersFrom(db: seq<Entry>, c: nat): set<string>
  {
    set i | 0 <= i < |db| && NumberedFrom(db[i].artiste, c) :: db[i].artiste
  }

  lemma PlaceholderArtistInjective(a: nat, b: nat)
    ensures PlaceholderArtist(a) == PlaceholderArtist(b) ==> a == b
  {
    var prefix := "Journée Libre ";
    if PlaceholderArtist(a) == PlaceholderArtist(b) {
      assert NatToString(a) == PlaceholderArtist(a)[|prefix|..];
      assert NatToString(b) == PlaceholderArtist(b)[|prefix|..];
      NatToStringInjective(a, b);
    }
  }

  /** A skipped placeholder `add` still makes progress: its number leaves the pending set. */
  lemma PlaceholdersShrink(db: seq<Entry>, c: nat)
    requires HasPair(db, PlaceholderArtist(c), FreeAlbum)
    ensures PlaceholdersFrom(db, c + 1) < PlaceholdersFrom(db, c)
  {
    var i :| 0 <= i < |db| && SamePair(db[i], PlaceholderArtist(c), FreeAlbum);
    assert PlaceholderArtist(c) in PlaceholdersFrom(db, c);
    if NumberedFrom(PlaceholderArtist(c), c + 1) {
      var k: nat :| c + 1 <= k && PlaceholderArtist(c) == PlaceholderArtist(k);
      PlaceholderArtistInjective(c, k);
    }
    assert PlaceholderArtist(c) !in PlaceholdersFrom(db, c + 1);
  }

  /** The global catalogue `DATABASE`, updated in place. */
  class Catalogue {
    var entries: seq<Entry>

    ghost predicate Valid()
      reads this
    {
      NoDuplicatePairs(entries)
    }

    constructor ()
      ensures Valid() && entries == []
    {
      entries := [];
    }

    /** `add`: a linear scan for the pair, then an append if it was not found. */
    method Add(artiste: string, album: string, genre: string, tag: string := DefaultTag)
      requires Valid()
      modifies this
      ensures Valid()
      ensures entries == Added(old(entries), artiste, album, genre, tag)
    {
      for i := 0 to |entries|
        invariant entries == old(entries)
        invariant forall j :: 0 <= j < i ==> !SamePair(entries[j], artiste, album)
      {
        if SamePair(entries[i], artiste, album) {
          return;
        }
      }
      entries := entries + [NewEntry(artiste, album, genre, tag)];
    }

    /** `construire_bibliotheque`: the seed lists, as a sequence of `add` calls. */
    method BuildLibrary(calls: seq<AddCall>)
      requires Valid()
      modifies this
      ensures Valid()
      ensures entries == AddAll(old(entries), calls)
    {
      for k := 0 to |calls|
        invariant Valid()
        invariant entries == AddAll(old(entries), calls[..k])
      {
        assert calls[..k + 1][..k] == calls[..k];
        Add(calls[k].artiste, calls[k].album, calls[k].genre, calls[k].tag);
      }
      assert calls[..|calls|] == calls;
    }

    /** `random.shuffle(DATABASE)`, with the random permutation supplied. */
    method Shuffle(perm: seq<nat>)
      requires Valid() && IsPermutation(perm, |entries|)
      modifies this
      ensures Valid()
      ensures entries == Permuted(old(entries), perm)
    {
      PermutedKeepsEntries(entries, perm);
      entries := Permuted(entries, perm);
    }

    /**
     * Cut the catalogue to its first 365 entries, or pad it in place with
     * "Journée Libre k" entries until it has 365. `numbers` are the k
     * of the placeholders actually appended.
     */
    method FitToTarget() returns (finalList: seq<Entry>, ghost numbers: seq<nat>)
      requires Valid()
      modifies this
      ensures Valid()
      ensures |finalList| == TargetCount
      ensures old(|entries|) >= TargetCount ==>
        entries == old(entries) && finalList == old(entries)[..TargetCount] && numbers == []
      ensures old(|entries|) < TargetCount ==>
        finalList == entries && finalList[..old(|entries|)] == old(entries)
        && |numbers| == TargetCount - old(|entries|)
        && (forall i :: 0 <= i < |numbers| ==> finalList[old(|entries|) + i] == Placeholder(numbers[i]))
        && (forall i :: 0 <= i < |numbers| ==> 1 <= numbers[i])
        && (forall i, j :: 0 <= i < j < |numbers| ==> numbers[i] < numbers[j])
    {
      var n := |entries|;
      numbers := [];
      if n >= TargetCount {
        finalList := entries[..TargetCount];
        return;
      }
      var compteur := 1;
      while |entries| < TargetCount
        invariant Valid()
        invariant n <= |entries| <= TargetCount
        invariant entries[..n] == old(entries)
        invariant |numbers| == |entries| - n
        invariant forall i :: 0 <= i < |numbers| ==> entries[n + i] == Placeholder(numbers[i])
        invariant forall i :: 0 <= i < |numbers| ==> 1 <= numbers[i] < compteur
        invariant forall i, j :: 0 <= i < j < |numbers| ==> numbers[i] < numbers[j]
        invariant 1 <= compteur
        decreases TargetCount - |entries|, PlaceholdersFrom(entries, compteur)
      {
        ghost var before := entries;
        Add(PlaceholderArtist(compteur), FreeAlbum, JokerGenre, FreeTag);
        if |entries| == |before| {
          PlaceholdersShrink(entries, compteur);
        } else {
          numbers := numbers + [compteur];
        }
        compteur := compteur + 1;
      }
      finalList := entries;
    }
  }

  /** The largest day offset from 2026-01-01 that Python's `date` can represent. */
  const MaxOffset := Ordinal(LastDate) - Ordinal(StartDate)

  /** `date(2026, 1, 1) + timedelta(days=i)`. */
  function ScheduleDate(i: nat): (d: Date)
    requires i <= MaxOffset
    ensures Valid(d) && Ordinal(d) == Ordinal(StartDate) + i
  {
    AddDays(StartDate, i)
  }

  /** The planning key of entry i: `str(date(2026, 1, 1) + timedelta(days=i))`. */
  function DayKey(i: nat): string
    requires i <= MaxOffset
  {
    IsoDate(ScheduleDate(i))
  }

  /** Later entries get later dates and later keys, so keys are pairwise distinct and sorted as the list is. */
  lemma DayKeysOrdered(i: nat, j: nat)
    requires i < j <= MaxOffset
    ensures Before(ScheduleDate(i), ScheduleDate(j))
    ensures LexLess(DayKey(i), DayKey(j)) && DayKey(i) != DayKey(j)
  {
    OrdinalOrder(ScheduleDate(i), ScheduleDate(j));
    IsoDateOrder(ScheduleDate(i), ScheduleDate(j));
  }

  /** Consecutive entries fall on consecutive days: no date is skipped. */
  lemma DayKeysConsecutive(i: nat)
    requires i < MaxOffset
    ensures ScheduleDate(i) != LastDate && ScheduleDate(i + 1) == NextDay(ScheduleDate(i))
  {
    OrdinalOrder(ScheduleDate(i), LastDate);
    OrdinalOrder(ScheduleDate(i + 1), NextDay(ScheduleDate(i)));
  }

  /** 365 entries reach New Year's Eve 2026 and stay inside 2026. */
  lemma ScheduleEndsOnNewYearsEve()
    ensures TargetCount - 1 <= MaxOffset
    ensures ScheduleDate(TargetCount - 1) == Date(StartYear, 12, 31)
    ensures forall i :: 0 <= i < TargetCount ==> ScheduleDate(i).year == StartYear
  {
    var last := Date(StartYear, 12, 31);
    assert Ordinal(last) == Ordinal(StartDate) + 364;
    OrdinalOrder(last, LastDate);
    OrdinalOrder(ScheduleDate(TargetCount - 1), last);
    forall i | 0 <= i < TargetCount
      ensures ScheduleDate(i).year == StartYear
    {
      OrdinalOrder(ScheduleDate(i), StartDate);
      OrdinalOrder(ScheduleDate(i), last);
    }
  }

  /** The keys of 365 entries run from "2026-01-01" to "2026-12-31". */
  lemma ScheduleCoversYear()
    ensures TargetCount - 1 <= MaxOffset
    ensures DayKey(0) == "2026-01-01"
    ensures DayKey(TargetCount - 1) == "2026-12-31"
  {
    ScheduleEndsOnNewYearsEve();
    YearBoundaryKeys();
  }

  lemma YearBoundaryKeys()
    ensures IsoDate(Date(StartYear, 1, 1)) == "2026-01-01"
    ensures IsoDate(Date(StartYear, 12, 31)) == "2026-12-31"
  {
    YearDigits();
    DayDigits();
  }

  lemma YearDigits()
    ensures Digits(2026, 4) == "2026"
  {
  }

  lemma DayDigits()
    ensures Digits(1, 2) == "01" && Digits(12, 2) == "12" && Digits(31, 2) == "31"
  {
  }

  /** Python's `planning[key] = item`: replace the value of an existing key in place, else append. */
  function Put(planning: seq<Slot>, key: string, item: Entry): (r: seq<Slot>)
    ensures (forall k :: 0 <= k < |planning| ==> planning[k].key != key) ==> r == planning + [Slot(key, item)]
    ensures (exists k :: 0 <= k < |planning| && planning[k].key == key) ==> |r| == |planning|
    ensures forall k :: 0 <= k < |planning| && planning[k].key == key
                        && (forall m :: 0 <= m < k ==> planning[m].key != key) ==>
      r == planning[k := Slot(key, item)]
  {
    if |planning| == 0 then [Slot(key, item)]
    else if planning[0].key == key then [Slot(key, item)] + planning[1..]
    else [planning[0]] + Put(planning[1..], key, item)
  }

  /** The `for i, item in enumerate(final_list)` loop that fills `planning`. */
  method BuildPlanning(finalList: seq<Entry>) returns (planning: seq<Slot>)
    requires |finalList| <= MaxOffset + 1
    ensures |planning| == |finalList|
    ensures forall i :: 0 <= i < |planning| ==> planning[i].key == DayKey(i) && planning[i].entry == finalList[i]
  {
    planning := [];
    for i := 0 to |finalList|
      invariant |planning| == i
      invariant forall k :: 0 <= k < i ==> planning[k] == Slot(DayKey(k), finalList[k])
    {
      var current := AddDays(StartDate, i);
      forall k | 0 <= k < i
        ensures planning[k].key != IsoDate(current)
      {
        DayKeysOrdered(k, i);
      }
      planning := Put(planning, IsoDate(current), finalList[i]);
    }
  }

  /** The catalogue built by `calls`, after `random.shuffle` picked `perm`. */
  function Shuffled(calls: seq<AddCall>, perm: seq<nat>): seq<Entry>
    requires IsPermutation(perm, |AddAll([], calls)|)
  {
    Permuted(AddAll([], calls), perm)
  }

  /** The tail added by the padding loop: "Journée Libre k" entries with k >= 1 strictly increasing. */
  ghost predicate NumberedPlaceholders(tail: seq<Entry>, numbers: seq<nat>)
  {
    |numbers| == |tail|
    && (forall i :: 0 <= i < |tail| ==> tail[i] == Placeholder(numbers[i]) && 1 <= numbers[i])
    && (forall i, j :: 0 <= i < j < |numbers| ==> numbers[i] < numbers[j])
  }

  /**
   * The first half of `generer_json_final`: build the catalogue, shuffle it
   * with `perm`, then cut or pad it to 365 entries.
   */
  method SelectYear(calls: seq<AddCall>, perm: seq<nat>) returns (finalList: seq<Entry>, ghost numbers: seq<nat>)
    requires IsPermutation(perm, |AddAll([], calls)|)
    ensures |finalList| == TargetCount
    ensures NoDuplicatePairs(finalList)
    ensures |Shuffled(calls, perm)| >= TargetCount ==>
      finalList == Shuffled(calls, perm)[..TargetCount] && numbers == []
    ensures |Shuffled(calls, perm)| < TargetCount ==>
      finalList[..|Shuffled(calls, perm)|] == Shuffled(calls, perm)
      && NumberedPlaceholders(finalList[|Shuffled(calls, perm)|..], numbers)
  {
    var database := new Catalogue();
    database.BuildLibrary(calls);
    assert database.entries == AddAll([], calls);
    database.Shuffle(perm);
    var shuffled := database.entries;
    finalList, numbers := database.FitToTarget();
    if |shuffled| < TargetCount {
      var tail := finalList[|shuffled|..];
      assert forall i :: 0 <= i < |tail| ==> tail[i] == finalList[|shuffled| + i];
    }
  }

  /** The entries of the planning, in key order. */
  function Entries(planning: seq<Slot>): (r: seq<Entry>)
    ensures |r| == |planning| && forall i :: 0 <= i < |r| ==> r[i] == planning[i].entry
  {
    seq(|planning|, i requires 0 <= i < |planning| => planning[i].entry)
  }

  /**
   * `generer_json_final` without the file output: 365 distinct albums keyed by
   * the days of 2026, the shuffled catalogue first and numbered placeholders after it.
   */
  method GenerateSchedule(calls: seq<AddCall>, perm: seq<nat>) returns (planning: seq<Slot>, ghost numbers: seq<nat>)
    requires IsPermutation(perm, |AddAll([], calls)|)
    ensures |planning| == TargetCount
    ensures forall i :: 0 <= i < TargetCount ==> planning[i].key == DayKey(i)
    ensures planning[0].key == "2026-01-01" && planning[TargetCount - 1].key == "2026-12-31"
    ensures NoDuplicatePairs(Entries(planning))
    ensures |Shuffled(calls, perm)| >= TargetCount ==>
      Entries(planning) == Shuffled(calls, perm)[..TargetCount] && numbers == []
    ensures |Shuffled(calls, perm)| < TargetCount ==>
      Entries(planning)[..|Shuffled(calls, perm)|] == Shuffled(calls, perm)
      && NumberedPlaceholders(Entries(planning)[|Shuffled(calls, perm)|..], numbers)
  {
    var finalList;
    finalList, numbers := SelectYear(calls, perm);
    ScheduleCoversYear();
    planning := BuildPlanning(finalList);
    assert Entries(planning) == finalList;
  }
}
