/** The play-history store of internal/services/storage/bbolt.go.

    The bbolt bucket is an ordered map: a sequence of (key, value) pairs
    kept in ascending byte order of the key text. A key is a clock
    reading and a song id, written `<time>:<songID>`; the RFC 3339 time
    text is abstracted to the decimal numeral of an integer clock
    reading. A value is a JSON-encoded entry, modelled as the entry itself
    (marshalling is a lossless round trip) or as a value that does not
    decode. */
module HistoryStore {
  import opened Text
  import opened Domain

  datatype HistoryKey = HistoryKey(time: nat, songId: string)

  datatype StoredValue = Encoded(entry: HistoryEntry) | Corrupt

  type Pair = (HistoryKey, StoredValue)

  /** createHistoryKey: the key bytes `time:songID`. */
  function KeyText(k: HistoryKey): string
  {
    Decimal(k.time) + ":" + k.songId
  }

  /** The song id is the text after the first ':' of a key, and the key
      ends in ":"+id. */
  lemma KeyTextSplits(k: HistoryKey)
    ensures HasSuffix(KeyText(k), ":" + k.songId)
    ensures After(KeyText(k), ":") == Some(k.songId)
  {
    var d := Decimal(k.time);
    var r := KeyText(k);
    assert r[|r| - |":" + k.songId|..] == ":" + k.songId;
    assert OccursAt(r, ":", |d|);
    assert forall j :: 0 <= j < |d| ==> !OccursAt(r, ":", j) by {
      forall j | 0 <= j < |d| ensures !OccursAt(r, ":", j) {
        assert r[j..j + 1][0] == d[j];
      }
    }
  }

  // ---------------------------------------------------------------------
  // Byte order of keys

  /** Strict lexicographic order on byte strings, as bbolt orders keys. */
  predicate Less(a: string, b: string)
  {
    if b == [] then false
    else if a == [] then true
    else if a[0] != b[0] then a[0] < b[0]
    else Less(a[1..], b[1..])
  }

  lemma {:induction false} LessIrreflexive(a: string)
    ensures !Less(a, a)
  {
    if a != [] {
      LessIrreflexive(a[1..]);
    }
  }

  lemma {:induction false} LessTransitive(a: string, b: string, c: string)
    requires Less(a, b) && Less(b, c)
    ensures Less(a, c)
  {
    if a != [] && a[0] == b[0] && b[0] == c[0] {
      LessTransitive(a[1..], b[1..], c[1..]);
    }
  }

  lemma {:induction false} LessTotal(a: string, b: string)
    ensures a == b || Less(a, b) || Less(b, a)
  {
    if a != [] && b != [] && a[0] == b[0] {
      LessTotal(a[1..], b[1..]);
      if a[1..] == b[1..] {
        assert a == [a[0]] + a[1..] && b == [b[0]] + b[1..];
      }
    }
  }

  /** The bucket lists its keys in strictly ascending byte order. */
  predicate Sorted(b: seq<Pair>)
  {
    forall i, j :: 0 <= i < j < |b| ==> Less(KeyText(b[i].0), KeyText(b[j].0))
  }

  lemma SortedTail(b: seq<Pair>)
    requires Sorted(b) && b != []
    ensures Sorted(b[1..])
    ensures forall p :: p in b[1..] ==> Less(KeyText(b[0].0), KeyText(p.0))
  {
    forall p | p in b[1..] ensures Less(KeyText(b[0].0), KeyText(p.0)) {
      var j :| 0 <= j < |b[1..]| && b[1..][j] == p;
      assert b[j + 1] == p;
    }
  }

  lemma SortedCons(x: Pair, rest: seq<Pair>)
    requires Sorted(rest)
    requires forall p :: p in rest ==> Less(KeyText(x.0), KeyText(p.0))
    ensures Sorted([x] + rest)
  {
    var r := [x] + rest;
    forall i, j | 0 <= i < j < |r| ensures Less(KeyText(r[i].0), KeyText(r[j].0)) {
      if i == 0 {
        assert r[j] in rest;
      } else {
        assert r[i] == rest[i - 1] && r[j] == rest[j - 1];
      }
    }
  }

  /** Some pair of the bucket has key text `t`. */
  predicate HasKey(b: seq<Pair>, t: string)
  {
    exists p :: p in b && KeyText(p.0) == t
  }

  // ---------------------------------------------------------------------
  // The two bucket operations the store uses (bbolt's Put and Delete)

  /** Put: insert at the key's place in order, or overwrite an equal key. */
  function Put(b: seq<Pair>, k: HistoryKey, v: StoredValue): seq<Pair>
  {
    if b == [] then [(k, v)]
    else if KeyText(b[0].0) == KeyText(k) then [(k, v)] + b[1..]
    else if Less(KeyText(k), KeyText(b[0].0)) then [(k, v)] + b
    else [b[0]] + Put(b[1..], k, v)
  }

  /** Every key of `b` lies above `t`. */
  lemma AllAbove(b: seq<Pair>, t: string)
    requires Sorted(b) && b != [] && Less(t, KeyText(b[0].0))
    ensures forall p :: p in b ==> Less(t, KeyText(p.0)) && KeyText(p.0) != t
  {
    SortedTail(b);
    LessIrreflexive(t);
    forall p | p in b[1..] ensures Less(t, KeyText(p.0)) {
      LessTransitive(t, KeyText(b[0].0), KeyText(p.0));
    }
    assert b == [b[0]] + b[1..];
  }

  /** After a Put the bucket holds the new pair and every pair with
      another key, and nothing else. */
  lemma {:induction false} PutMembers(b: seq<Pair>, k: HistoryKey, v: StoredValue)
    requires Sorted(b)
    ensures forall p :: p in Put(b, k, v) <==> p == (k, v) || (p in b && KeyText(p.0) != KeyText(k))
  {
    if b == [] {
    } else if KeyText(b[0].0) == KeyText(k) {
      SortedTail(b);
      LessIrreflexive(KeyText(k));
      assert b == [b[0]] + b[1..];
    } else if Less(KeyText(k), KeyText(b[0].0)) {
      AllAbove(b, KeyText(k));
    } else {
      SortedTail(b);
      PutMembers(b[1..], k, v);
      assert b == [b[0]] + b[1..];
    }
  }

  /** Put keeps the bucket in key order. */
  lemma {:induction false} PutSorted(b: seq<Pair>, k: HistoryKey, v: StoredValue)
    requires Sorted(b)
    ensures Sorted(Put(b, k, v))
  {
    if b == [] {
    } else if KeyText(b[0].0) == KeyText(k) {
      SortedTail(b);
      SortedCons((k, v), b[1..]);
    } else if Less(KeyText(k), KeyText(b[0].0)) {
      AllAbove(b, KeyText(k));
      SortedCons((k, v), b);
    } else {
      LessTotal(KeyText(k), KeyText(b[0].0));
      SortedTail(b);
      PutSorted(b[1..], k, v);
      PutMembers(b[1..], k, v);
      SortedCons(b[0], Put(b[1..], k, v));
    }
  }

  /** Put adds one pair for a new key and overwrites one for an existing key. */
  lemma {:induction false} PutLength(b: seq<Pair>, k: HistoryKey, v: StoredValue)
    requires Sorted(b)
    ensures |Put(b, k, v)| == |b| + (if HasKey(b, KeyText(k)) then 0 else 1)
  {
    if b == [] {
    } else if KeyText(b[0].0) == KeyText(k) {
      assert b[0] in b;
    } else if Less(KeyText(k), KeyText(b[0].0)) {
      AllAbove(b, KeyText(k));
    } else {
      SortedTail(b);
      PutLength(b[1..], k, v);
      assert b == [b[0]] + b[1..];
      assert HasKey(b, KeyText(k)) == HasKey(b[1..], KeyText(k));
    }
  }

  /** Delete: remove the pair whose key text is `t`, if any. */
  function Delete(b: seq<Pair>, t: string): seq<Pair>
  {
    if b == [] then []
    else if KeyText(b[0].0) == t then Delete(b[1..], t)
    else [b[0]] + Delete(b[1..], t)
  }

  lemma {:induction false} DeleteMembers(b: seq<Pair>, t: string)
    ensures forall p :: p in Delete(b, t) <==> p in b && KeyText(p.0) != t
  {
    if b != [] {
      DeleteMembers(b[1..], t);
      assert b == [b[0]] + b[1..];
    }
  }

  lemma {:induction false} DeleteSorted(b: seq<Pair>, t: string)
    requires Sorted(b)
    ensures Sorted(Delete(b, t))
  {
    if b != [] {
      SortedTail(b);
      DeleteSorted(b[1..], t);
      if KeyText(b[0].0) != t {
        DeleteMembers(b[1..], t);
        SortedCons(b[0], Delete(b[1..], t));
      }
    }
  }

  lemma {:induction false} DeleteAbsent(b: seq<Pair>, t: string)
    requires !HasKey(b, t)
    ensures Delete(b, t) == b
  {
    if b != [] {
      assert b[0] in b;
      assert forall p :: p in b[1..] ==> p in b;
      DeleteAbsent(b[1..], t);
    }
  }

  /** Deleting a key that is present removes exactly one pair. */
  lemma {:induction false} DeleteLength(b: seq<Pair>, t: string)
    requires Sorted(b)
    ensures |Delete(b, t)| == |b| - (if HasKey(b, t) then 1 else 0)
  {
    if b != [] {
      SortedTail(b);
      assert b == [b[0]] + b[1..];
      if KeyText(b[0].0) == t {
        LessIrreflexive(t);
        DeleteAbsent(b[1..], t);
        assert b[0] in b;
      } else {
        DeleteLength(b[1..], t);
        assert HasKey(b, t) == HasKey(b[1..], t);
      }
    }
  }

  // ---------------------------------------------------------------------
  // The store operations, as functions of the bucket

  /** A key belongs to song `id` when its text ends in ":"+id. */
  predicate Matches(k: HistoryKey, id: string)
  {
    HasSuffix(KeyText(k), ":" + id)
  }

  /** findOldKeyForSong: the first pair in key order whose key matches. */
  function FindOld(b: seq<Pair>, id: string): (r: Option<Pair>)
    ensures r.None? <==> forall p :: p in b ==> !Matches(p.0, id)
    ensures r.Some? ==> exists i :: 0 <= i < |b| && b[i] == r.value && Matches(r.value.0, id)
                          && forall j :: 0 <= j < i ==> !Matches(b[j].0, id)
  {
    if b == [] then None
    else if Matches(b[0].0, id) then Some(b[0])
    else
      var r := FindOld(b[1..], id);
      assert b == [b[0]] + b[1..];
      if r.Some? then
        var i :| 0 <= i < |b[1..]| && b[1..][i] == r.value && Matches(r.value.0, id)
                 && forall j :: 0 <= j < i ==> !Matches(b[1..][j].0, id);
        assert b[i + 1] == r.value;
        assert forall j :: 1 <= j < i + 1 ==> b[j] == b[1..][j - 1];
        r
      else r
  }

  /** Drop the pair found for `id`, then store `np`: the shared step of
      AddToHistory and UpdateHistoryEntryPosition. */
  function Rekey(b: seq<Pair>, id: string, np: Pair): seq<Pair>
  {
    var cleared := match FindOld(b, id)
                   case Some(prior) => Delete(b, KeyText(prior.0))
                   case None => b;
    Put(cleared, np.0, np.1)
  }

  /** The pair AddToHistory writes: ResumeAt 0, PlayedAt now, key `now:songID`. */
  function AddedPair(entry: HistoryEntry, now: nat): Pair
  {
    (HistoryKey(now, entry.song.id), Encoded(entry.(resumeAt := 0, playedAt := now)))
  }

  /** AddToHistory */
  function Add(b: seq<Pair>, entry: HistoryEntry, now: nat): seq<Pair>
  {
    Rekey(b, entry.song.id, AddedPair(entry, now))
  }

  datatype UpdateResult = Updated(bucket: seq<Pair>) | DecodeError

  /** The pair UpdateHistoryEntryPosition writes for the decoded entry `e`. */
  function MovedPair(e: HistoryEntry, songId: string, position: int, now: nat): Pair
  {
    (HistoryKey(now, songId), Encoded(e.(resumeAt := position, playedAt := now)))
  }

  /** UpdateHistoryEntryPosition: nothing happens without an entry for the
      song; a stored value that does not decode is an error; otherwise the
      entry is re-keyed under `now` with the new resume position. */
  function UpdatePosition(b: seq<Pair>, songId: string, position: int, now: nat): UpdateResult
  {
    match FindOld(b, songId)
    case None => Updated(b)
    case Some(prior) =>
      match prior.1
      case Corrupt => DecodeError
      case Encoded(e) => Updated(Rekey(b, songId, MovedPair(e, songId, position, now)))
  }

  /** The value's entry, when it decodes. */
  function DecodeValue(v: StoredValue): seq<HistoryEntry>
  {
    match v
    case Encoded(e) => [e]
    case Corrupt => []
  }

  /** The entries that decode, in key order (the ForEach of GetHistory). */
  function Decoded(b: seq<Pair>): seq<HistoryEntry>
  {
    if b == [] then [] else Decoded(b[..|b| - 1]) + DecodeValue(b[|b| - 1].1)
  }

  lemma {:induction false} DecodedMembers(b: seq<Pair>)
    ensures forall e :: e in Decoded(b) <==> exists p :: p in b && p.1 == Encoded(e)
  {
    if b != [] {
      DecodedMembers(b[..|b| - 1]);
      assert b == b[..|b| - 1] + [b[|b| - 1]];
    }
  }

  // ---------------------------------------------------------------------
  // Ordering of GetHistory (sort.Slice by PlayedAt, newest first)

  predicate NewestFirst(s: seq<HistoryEntry>)
  {
    forall i, j :: 0 <= i < j < |s| ==> s[i].playedAt >= s[j].playedAt
  }

  lemma NewestCons(x: HistoryEntry, rest: seq<HistoryEntry>)
    requires NewestFirst(rest)
    requires forall y :: y in rest ==> x.playedAt >= y.playedAt
    ensures NewestFirst([x] + rest)
  {
    var r := [x] + rest;
    forall i, j | 0 <= i < j < |r| ensures r[i].playedAt >= r[j].playedAt {
      if i == 0 {
        assert r[j] in rest;
      } else {
        assert r[i] == rest[i - 1] && r[j] == rest[j - 1];
      }
    }
  }

  function InsertByRecency(e: HistoryEntry, s: seq<HistoryEntry>): seq<HistoryEntry>
  {
    if s == [] then [e]
    else if e.playedAt >= s[0].playedAt then [e] + s
    else [s[0]] + InsertByRecency(e, s[1..])
  }

  lemma {:induction false} InsertPermutes(e: HistoryEntry, s: seq<HistoryEntry>)
    ensures multiset(InsertByRecency(e, s)) == multiset(s) + multiset{e}
  {
    if s != [] && e.playedAt < s[0].playedAt {
      InsertPermutes(e, s[1..]);
      assert s == [s[0]] + s[1..];
    }
  }

  lemma {:induction false} InsertOrdered(e: HistoryEntry, s: seq<HistoryEntry>)
    requires NewestFirst(s)
    ensures NewestFirst(InsertByRecency(e, s))
  {
    if s == [] {
    } else if e.playedAt >= s[0].playedAt {
      forall y | y in s ensures e.playedAt >= y.playedAt {
        var j :| 0 <= j < |s| && s[j] == y;
      }
      NewestCons(e, s);
    } else {
      var rest := InsertByRecency(e, s[1..]);
      InsertOrdered(e, s[1..]);
      InsertPermutes(e, s[1..]);
      forall y | y in rest ensures s[0].playedAt >= y.playedAt {
        assert y in multiset(rest);
        if y != e {
          assert y in multiset(s[1..]);
          var j :| 0 <= j < |s[1..]| && s[1..][j] == y;
          assert s[j + 1] == y;
        }
      }
      NewestCons(s[0], rest);
    }
  }

  /** The order GetHistory returns: newest first, and a permutation of the
      decoded entries (Go's sort.Slice fixes no order among equal times). */
  function SortByRecency(s: seq<HistoryEntry>): (r: seq<HistoryEntry>)
    ensures NewestFirst(r)
    ensures multiset(r) == multiset(s)
  {
    if s == [] then []
    else
      var rest := SortByRecency(s[1..]);
      InsertOrdered(s[0], rest);
      InsertPermutes(s[0], rest);
      assert s == [s[0]] + s[1..];
      InsertByRecency(s[0], rest)
  }

  /** GetHistory: the decoded entries, newest first, cut to `limit`. */
  function History(b: seq<Pair>, limit: nat): seq<HistoryEntry>
  {
    Take(SortByRecency(Decoded(b)), limit)
  }

  /** The entry with the strictly latest PlayedAt comes first. */
  lemma FreshestFirst(s: seq<HistoryEntry>, e: HistoryEntry)
    requires e in s
    requires forall x :: x in s ==> x == e || x.playedAt < e.playedAt
    ensures SortByRecency(s) != [] && SortByRecency(s)[0] == e
  {
    var r := SortByRecency(s);
    assert e in multiset(r);
    var k :| 0 <= k < |r| && r[k] == e;
    assert r[0] in multiset(s);
  }

  /** GetHistory keeps the newest entries: it returns at most `limit`
      entries in newest-first order, all of them decodable values of the
      bucket, and no entry it leaves out is newer than one it returns. */
  lemma HistoryKeepsNewest(b: seq<Pair>, limit: nat)
    ensures var all := SortByRecency(Decoded(b));
      var r := History(b, limit);
      && |r| == (if |Decoded(b)| <= limit then |Decoded(b)| else limit)
      && NewestFirst(r)
      && (forall e :: e in r ==> exists p :: p in b && p.1 == Encoded(e))
      && (forall i, j :: 0 <= i < |r| <= j < |all| ==> r[i].playedAt >= all[j].playedAt)
  {
    var all := SortByRecency(Decoded(b));
    var r := History(b, limit);
    DecodedMembers(b);
    assert |all| == |multiset(all)| == |multiset(Decoded(b))| == |Decoded(b)|;
    forall e | e in r ensures exists p :: p in b && p.1 == Encoded(e) {
      assert e in all;
      assert e in multiset(all);
      assert e in Decoded(b);
    }
    forall i, j | 0 <= i < |r| <= j < |all| ensures r[i].playedAt >= all[j].playedAt {
      assert r[i] == all[i];
    }
  }

  // ---------------------------------------------------------------------
  // Invariants of the bucket and what the operations promise

  /** Every song id in the bucket is free of ':' (YouTube ids are). */
  predicate ColonFree(b: seq<Pair>)
  {
    forall p :: p in b ==> ':' !in p.0.songId
  }

  /** No two pairs belong to the same song. */
  predicate OnePerSong(b: seq<Pair>)
  {
    forall p, q :: p in b && q in b && p.0.songId == q.0.songId ==> p == q
  }

  /** Every decodable value is filed under its own song id and time. */
  predicate Filed(b: seq<Pair>)
  {
    forall p :: p in b && p.1.Encoded? ==>
      p.1.entry.song.id == p.0.songId && p.1.entry.playedAt == p.0.time
  }

  predicate WellFormed(b: seq<Pair>)
  {
    Sorted(b) && ColonFree(b) && OnePerSong(b) && Filed(b)
  }

  /** For colon-free ids, a key belongs to a song exactly when its id is
      the song's id. */
  lemma MatchesExactly(k: HistoryKey, id: string)
    requires ':' !in k.songId && ':' !in id
    ensures Matches(k, id) <==> k.songId == id
  {
    var t := KeyText(k);
    var d := Decimal(k.time);
    var suffix := ":" + id;
    assert t == d + [':'] + k.songId;
    if Matches(k, id) {
      var start := |t| - |suffix|;
      assert t[start] == ':';
      if start == |d| {
        assert t[|d| + 1..] == k.songId;
      }
    }
  }

  /** A key can be read back from its text. */
  lemma KeyTextInjective(k1: HistoryKey, k2: HistoryKey)
    ensures KeyText(k1) == KeyText(k2) ==> k1 == k2
  {
    if KeyText(k1) == KeyText(k2) {
      var d1, d2 := Decimal(k1.time), Decimal(k2.time);
      var t := KeyText(k1);
      assert t == d1 + [':'] + k1.songId && t == d2 + [':'] + k2.songId;
      assert t[|d1|] == ':' && t[|d2|] == ':';
      assert d1 == t[..|d1|] == d2;
      DecimalRoundTrip(k1.time);
      DecimalRoundTrip(k2.time);
      assert k1.songId == t[|d1| + 1..] == k2.songId;
    }
  }

  /** The cross-song match: a song id that ends in ":"+id is taken for
      song `id`, so adding song "b" deletes the entry of song "a:b". */
  lemma SuffixMatchesOtherSong()
    ensures var b := [(HistoryKey(1, "a:b"), Encoded(HistoryEntry(Song("a:b", "", []), 1, 0)))];
      && Matches(b[0].0, "b")
      && Decoded(Add(b, HistoryEntry(Song("b", "", []), 0, 0), 2)) == [HistoryEntry(Song("b", "", []), 2, 0)]
  {
    var b := [(HistoryKey(1, "a:b"), Encoded(HistoryEntry(Song("a:b", "", []), 1, 0)))];
    assert KeyText(b[0].0) == "1:a:b";
    assert Matches(b[0].0, "b");
    assert Delete(b, "1:a:b") == [];
  }

  /** Re-keying the song `id` to `np` keeps the store well formed, leaves
      exactly one pair for the song, namely `np`, keeps every other pair,
      and grows the store only when the song was absent. */
  lemma RekeySpec(b: seq<Pair>, id: string, np: Pair)
    requires WellFormed(b) && ':' !in id && np.0.songId == id
    requires np.1.Encoded? ==> np.1.entry.song.id == id && np.1.entry.playedAt == np.0.time
    ensures var r := Rekey(b, id, np);
      && WellFormed(r)
      && np in r
      && (forall p :: p in r && p.0.songId == id ==> p == np)
      && (forall p :: p in b && p.0.songId != id ==> p in r)
      && (forall p :: p in r && p != np ==> p in b)
      && |r| == |b| + (if exists p :: p in b && p.0.songId == id then 0 else 1)
  {
    forall p | p in b ensures Matches(p.0, id) <==> p.0.songId == id {
      MatchesExactly(p.0, id);
    }
    var found := FindOld(b, id);
    var cleared := if found.Some? then Delete(b, KeyText(found.value.0)) else b;
    assert (exists p :: p in b && p.0.songId == id) <==> found.Some?;
    if found.Some? {
      DeleteMembers(b, KeyText(found.value.0));
      DeleteSorted(b, KeyText(found.value.0));
      DeleteLength(b, KeyText(found.value.0));
      forall p | p in b && p.0.songId != id ensures KeyText(p.0) != KeyText(found.value.0) {
        KeyTextInjective(p.0, found.value.0);
      }
      assert found.value in b;
    }
    assert Sorted(cleared);
    assert forall p :: p in cleared <==> p in b && p.0.songId != id;
    assert |cleared| == |b| - (if found.Some? then 1 else 0);
    forall p | p in cleared ensures KeyText(p.0) != KeyText(np.0) {
      KeyTextInjective(p.0, np.0);
    }
    PutMembers(cleared, np.0, np.1);
    PutSorted(cleared, np.0, np.1);
    PutLength(cleared, np.0, np.1);
  }

  /** After AddToHistory exactly one pair belongs to the song: the entry
      with ResumeAt 0 and PlayedAt now under key `now:songID`. Every other
      pair is kept, and re-adding a song leaves the count unchanged. */
  lemma AddKeepsOneEntry(b: seq<Pair>, entry: HistoryEntry, now: nat)
    requires WellFormed(b) && ':' !in entry.song.id
    ensures var r := Add(b, entry, now);
      && WellFormed(r)
      && AddedPair(entry, now) in r
      && (forall p :: p in r && p.0.songId == entry.song.id ==> p == AddedPair(entry, now))
      && (forall p :: p in b && p.0.songId != entry.song.id ==> p in r)
      && (forall p :: p in r && p != AddedPair(entry, now) ==> p in b)
      && |r| == |b| + (if exists p :: p in b && p.0.songId == entry.song.id then 0 else 1)
  {
    RekeySpec(b, entry.song.id, AddedPair(entry, now));
  }

  /** A song added at a time later than every stored entry comes first
      in GetHistory. */
  lemma AddMovesToFront(b: seq<Pair>, entry: HistoryEntry, now: nat, limit: nat)
    requires WellFormed(b) && ':' !in entry.song.id && limit > 0
    requires forall p :: p in b && p.1.Encoded? ==> p.1.entry.playedAt < now
    ensures History(Add(b, entry, now), limit) != []
    ensures History(Add(b, entry, now), limit)[0] == entry.(resumeAt := 0, playedAt := now)
  {
    var np := AddedPair(entry, now);
    var r := Add(b, entry, now);
    RekeySpec(b, entry.song.id, np);
    DecodedMembers(r);
    FreshestFirst(Decoded(r), np.1.entry);
  }

  /** UpdateHistoryEntryPosition without an entry for the song leaves
      the bucket as it is. */
  lemma UpdateAbsentIsNoop(b: seq<Pair>, songId: string, position: int, now: nat)
    requires ColonFree(b) && ':' !in songId
    requires forall p :: p in b ==> p.0.songId != songId
    ensures UpdatePosition(b, songId, position, now) == Updated(b)
  {
    forall p | p in b ensures !Matches(p.0, songId) {
      MatchesExactly(p.0, songId);
    }
  }

  /** UpdateHistoryEntryPosition on a value that does not decode fails. */
  lemma UpdateCorruptFails(b: seq<Pair>, songId: string, position: int, now: nat, p: Pair)
    requires WellFormed(b) && ':' !in songId
    requires p in b && p.0.songId == songId && p.1 == Corrupt
    ensures UpdatePosition(b, songId, position, now) == DecodeError
  {
    MatchesExactly(p.0, songId);
    var found := FindOld(b, songId);
    MatchesExactly(found.value.0, songId);
  }

  /** UpdateHistoryEntryPosition on a stored entry replaces it by the same
      entry with ResumeAt = position and PlayedAt = now, filed under
      `now:songID`; the song keeps exactly one pair and the count is
      unchanged. */
  lemma UpdateMovesEntry(b: seq<Pair>, songId: string, position: int, now: nat, p: Pair)
    requires WellFormed(b) && ':' !in songId
    requires p in b && p.0.songId == songId && p.1.Encoded?
    ensures var np := MovedPair(p.1.entry, songId, position, now);
      var u := UpdatePosition(b, songId, position, now);
      && u.Updated?
      && WellFormed(u.bucket)
      && np in u.bucket
      && (forall q :: q in u.bucket && q.0.songId == songId ==> q == np)
      && (forall q :: q in b && q.0.songId != songId ==> q in u.bucket)
      && |u.bucket| == |b|
  {
    MatchesExactly(p.0, songId);
    var found := FindOld(b, songId);
    MatchesExactly(found.value.0, songId);
    assert found.value == p;
    RekeySpec(b, songId, MovedPair(p.1.entry, songId, position, now));
  }

  // ---------------------------------------------------------------------
  // The store object

  datatype Outcome = Pass | Fail

  /** BboltStore: the history bucket, changed in place by its methods. */
  class BboltStore {
    var bucket: seq<Pair>

    /** bbolt keeps a bucket's keys distinct and in byte order. */
    predicate Valid()
      reads this
    {
      Sorted(bucket)
    }

    /** NewBboltStore: open a database whose bucket holds `contents`. */
    constructor (contents: seq<Pair>)
      requires Sorted(contents)
      ensures Valid() && bucket == contents
    {
      bucket := contents;
    }

    /** findOldKeyForSong: walk the cursor to the first matching key. */
    method FindOldKeyForSong(songId: string) returns (found: Option<Pair>)
      requires Valid()
      ensures found == FindOld(bucket, songId)
    {
      var i := 0;
      while i < |bucket|
        invariant 0 <= i <= |bucket|
        invariant FindOld(bucket[i..], songId) == FindOld(bucket, songId)
        decreases |bucket| - i
      {
        assert bucket[i..][1..] == bucket[i + 1..];
        if Matches(bucket[i].0, songId) {
          return Some(bucket[i]);
        }
        i := i + 1;
      }
      return None;
    }

    /** AddToHistory; on a well-formed bucket and a colon-free id the
        bucket stays well-formed (AddKeepsOneEntry). */
    method AddToHistory(entry: HistoryEntry, now: nat)
      requires Valid()
      modifies this`bucket
      ensures Valid() && bucket == Add(old(bucket), entry, now)
      ensures WellFormed(old(bucket)) && ':' !in entry.song.id ==> WellFormed(bucket)
    {
      ghost var b := bucket;
      var found := FindOldKeyForSong(entry.song.id);
      if found.Some? {
        DeleteSorted(bucket, KeyText(found.value.0));
        bucket := Delete(bucket, KeyText(found.value.0));
      }
      var stored := entry.(resumeAt := 0, playedAt := now);
      PutSorted(bucket, HistoryKey(now, entry.song.id), Encoded(stored));
      bucket := Put(bucket, HistoryKey(now, entry.song.id), Encoded(stored));
      if WellFormed(b) && ':' !in entry.song.id {
        AddKeepsOneEntry(b, entry, now);
      }
    }

    /** UpdateHistoryEntryPosition; on a well-formed bucket and a
        colon-free id the bucket stays well-formed (UpdateMovesEntry). */
    method UpdateHistoryEntryPosition(songId: string, position: int, now: nat) returns (r: Outcome)
      requires Valid()
      modifies this`bucket
      ensures Valid()
      ensures r == Pass <==> UpdatePosition(old(bucket), songId, position, now).Updated?
      ensures r == Pass ==> bucket == UpdatePosition(old(bucket), songId, position, now).bucket
      ensures r == Fail ==> bucket == old(bucket)
      ensures WellFormed(old(bucket)) && ':' !in songId ==> WellFormed(bucket)
    {
      ghost var b := bucket;
      var found := FindOldKeyForSong(songId);
      if found.None? {
        return Pass;
      }
      var (key, value) := found.value;
      if value.Corrupt? {
        return Fail;
      }
      DeleteSorted(bucket, KeyText(key));
      bucket := Delete(bucket, KeyText(key));
      var moved := value.entry.(resumeAt := position, playedAt := now);
      PutSorted(bucket, HistoryKey(now, songId), Encoded(moved));
      bucket := Put(bucket, HistoryKey(now, songId), Encoded(moved));
      if WellFormed(b) && ':' !in songId {
        MatchesExactly(key, songId);
        UpdateMovesEntry(b, songId, position, now, found.value);
      }
      return Pass;
    }

    /** GetHistory: collect the decodable entries in key order, sort them
        newest first and keep the first `limit`. */
    method GetHistory(limit: int) returns (entries: seq<HistoryEntry>)
      requires Valid() && limit >= 0
      ensures entries == History(bucket, limit)
      ensures |entries| <= limit && NewestFirst(entries)
      ensures forall e :: e in entries ==> exists p :: p in bucket && p.1 == Encoded(e)
    {
      entries := [];
      var i := 0;
      while i < |bucket|
        invariant 0 <= i <= |bucket|
        invariant entries == Decoded(bucket[..i])
        decreases |bucket| - i
      {
        assert bucket[..i + 1][..i] == bucket[..i];
        if bucket[i].1.Encoded? {
          entries := entries + [bucket[i].1.entry];
        }
        i := i + 1;
      }
      assert bucket[..i] == bucket;
      entries := SortByRecency(entries);
      if |entries| > limit {
        entries := entries[..limit];
      }
      HistoryKeepsNewest(bucket, limit);
    }
  }
}
