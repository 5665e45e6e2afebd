/** The two list transforms every store action is built from: the
    `map`-with-spread that patches the records carrying an id, and the
    `filter` that drops them. They are generic in the record type; the record's
    id and the patch merge are passed as functions. */
module Records {

  /** One record after `r.id === id ? { ...r, ...patch } : r`. */
  function Patched<T, P>(t: T, id: string, patch: P, idOf: T -> string, merge: (T, P) -> T): T
  {
    if idOf(t) == id then merge(t, patch) else t
  }

  /** `s.map(r => r.id === id ? { ...r, ...patch } : r)`. */
  function UpdateById<T, P>(s: seq<T>, id: string, patch: P, idOf: T -> string, merge: (T, P) -> T): (r: seq<T>)
    ensures |r| == |s|
  {
    if |s| == 0 then []
    else [Patched(s[0], id, patch, idOf, merge)] + UpdateById(s[1..], id, patch, idOf, merge)
  }

  /** `s.filter(r => r.id !== id)`. */
  function RemoveById<T>(s: seq<T>, id: string, idOf: T -> string): (r: seq<T>)
    ensures |r| <= |s|
    ensures forall i :: 0 <= i < |r| ==> idOf(r[i]) != id
  {
    if |s| == 0 then []
    else if idOf(s[0]) == id then RemoveById(s[1..], id, idOf)
    else [s[0]] + RemoveById(s[1..], id, idOf)
  }

  /** The update touches each position on its own: position `i` of the result
      is the patched record when its id matches and the old record otherwise. */
  lemma {:induction false} UpdateByIdAt<T, P>(s: seq<T>, id: string, patch: P, idOf: T -> string, merge: (T, P) -> T, i: nat)
    requires i < |s|
    ensures UpdateById(s, id, patch, idOf, merge)[i] == (if idOf(s[i]) == id then merge(s[i], patch) else s[i])
  {
    if i > 0 {
      UpdateByIdAt(s[1..], id, patch, idOf, merge, i - 1);
    }
  }

  /** Updating an id that no record carries changes nothing. */
  lemma {:induction false} UpdateUnknownId<T, P>(s: seq<T>, id: string, patch: P, idOf: T -> string, merge: (T, P) -> T)
    requires forall i :: 0 <= i < |s| ==> idOf(s[i]) != id
    ensures UpdateById(s, id, patch, idOf, merge) == s
  {
    if |s| > 0 {
      UpdateUnknownId(s[1..], id, patch, idOf, merge);
    }
  }

  /** Applying the same patch twice is applying it once, provided merging the
      patch into a record already carrying it changes nothing (true of a spread). */
  lemma {:induction false} UpdateTwice<T, P>(s: seq<T>, id: string, patch: P, idOf: T -> string, merge: (T, P) -> T)
    requires forall t :: merge(merge(t, patch), patch) == merge(t, patch)
    ensures UpdateById(UpdateById(s, id, patch, idOf, merge), id, patch, idOf, merge)
            == UpdateById(s, id, patch, idOf, merge)
  {
    if |s| > 0 {
      UpdateTwice(s[1..], id, patch, idOf, merge);
      var once := UpdateById(s, id, patch, idOf, merge);
      assert once[1..] == UpdateById(s[1..], id, patch, idOf, merge);
    }
  }

  /** Removal keeps exactly the records whose id differs. */
  lemma {:induction false} RemoveByIdMembers<T>(s: seq<T>, id: string, idOf: T -> string, t: T)
    ensures t in RemoveById(s, id, idOf) <==> t in s && idOf(t) != id
  {
    if |s| > 0 {
      RemoveByIdMembers(s[1..], id, idOf, t);
      assert s == [s[0]] + s[1..];
    }
  }

  /** Removal works piecewise, so the kept records stay in their order. */
  lemma {:induction false} RemoveByIdConcat<T>(a: seq<T>, b: seq<T>, id: string, idOf: T -> string)
    ensures RemoveById(a + b, id, idOf) == RemoveById(a, id, idOf) + RemoveById(b, id, idOf)
  {
    if |a| == 0 {
      assert a + b == b;
    } else {
      assert (a + b)[1..] == a[1..] + b;
      RemoveByIdConcat(a[1..], b, id, idOf);
    }
  }

  /** Removing an id that no record carries changes nothing. */
  lemma {:induction false} RemoveUnknownId<T>(s: seq<T>, id: string, idOf: T -> string)
    requires forall i :: 0 <= i < |s| ==> idOf(s[i]) != id
    ensures RemoveById(s, id, idOf) == s
  {
    if |s| > 0 {
      RemoveUnknownId(s[1..], id, idOf);
    }
  }

  /** Removing the same id twice is removing it once. */
  lemma RemoveTwice<T>(s: seq<T>, id: string, idOf: T -> string)
    ensures RemoveById(RemoveById(s, id, idOf), id, idOf) == RemoveById(s, id, idOf)
  {
    RemoveUnknownId(RemoveById(s, id, idOf), id, idOf);
  }

  // ---------------------------------------------------------------------------
  // Batches: a loop issuing one `update*` call per (id, patch) pair

  /** The list after the updates in `updates` are applied one after another. */
  function ApplyAll<T, P>(s: seq<T>, updates: seq<(string, P)>, idOf: T -> string, merge: (T, P) -> T): (r: seq<T>)
    ensures |r| == |s|
  {
    if |updates| == 0 then s
    else
      var last := updates[|updates| - 1];
      UpdateById(ApplyAll(s, updates[..|updates| - 1], idOf, merge), last.0, last.1, idOf, merge)
  }

  /** What a batch of updates does to one record on its own. */
  function ApplyOne<T, P>(t: T, updates: seq<(string, P)>, idOf: T -> string, merge: (T, P) -> T): T
  {
    if |updates| == 0 then t
    else
      var last := updates[|updates| - 1];
      Patched(ApplyOne(t, updates[..|updates| - 1], idOf, merge), last.0, last.1, idOf, merge)
  }

  /** A batch acts on each position separately. */
  lemma {:induction false} ApplyAllAt<T, P>(s: seq<T>, updates: seq<(string, P)>, idOf: T -> string, merge: (T, P) -> T, i: nat)
    requires i < |s|
    ensures ApplyAll(s, updates, idOf, merge)[i] == ApplyOne(s[i], updates, idOf, merge)
  {
    if |updates| > 0 {
      var before, last := updates[..|updates| - 1], updates[|updates| - 1];
      ApplyAllAt(s, before, idOf, merge, i);
      UpdateByIdAt(ApplyAll(s, before, idOf, merge), last.0, last.1, idOf, merge, i);
    }
  }

  /** Every patch of the batch is a whole record carrying the id it is sent to:
      merging it gives the same record whatever it is merged into. */
  ghost predicate WholeRecordUpdates<T(!new), P>(updates: seq<(string, P)>, idOf: T -> string, merge: (T, P) -> T)
  {
    forall j, t1: T, t2: T :: 0 <= j < |updates| ==>
      merge(t1, updates[j].1) == merge(t2, updates[j].1) && idOf(merge(t1, updates[j].1)) == updates[j].0
  }

  /** Some update of the batch is sent to `id`. */
  ghost predicate Mentions<P>(updates: seq<(string, P)>, id: string)
  {
    exists j :: 0 <= j < |updates| && updates[j].0 == id
  }

  /** Whole-record updates that keep their ids never change a record's id. */
  lemma {:induction false} ApplyOneKeepsId<T(!new), P>(t: T, updates: seq<(string, P)>, idOf: T -> string, merge: (T, P) -> T)
    requires WholeRecordUpdates(updates, idOf, merge)
    ensures idOf(ApplyOne(t, updates, idOf, merge)) == idOf(t)
  {
    if |updates| > 0 {
      var before := updates[..|updates| - 1];
      assert WholeRecordUpdates(before, idOf, merge) by {
        forall j, t1: T, t2: T | 0 <= j < |before|
          ensures merge(t1, before[j].1) == merge(t2, before[j].1) && idOf(merge(t1, before[j].1)) == before[j].0
        {
          assert before[j] == updates[j];
        }
      }
      ApplyOneKeepsId(t, before, idOf, merge);
    }
  }

  /** A record no update is sent to comes through a batch unchanged. */
  lemma {:induction false} ApplyOneUnmentioned<T, P>(t: T, updates: seq<(string, P)>, idOf: T -> string, merge: (T, P) -> T)
    requires !Mentions(updates, idOf(t))
    ensures ApplyOne(t, updates, idOf, merge) == t
  {
    if |updates| > 0 {
      var before := updates[..|updates| - 1];
      assert !Mentions(before, idOf(t)) by {
        forall j | 0 <= j < |before|
          ensures before[j].0 != idOf(t)
        {
          assert before[j] == updates[j];
        }
      }
      ApplyOneUnmentioned(t, before, idOf, merge);
    }
  }

  /** Under whole-record updates, the update last sent to a record's id
      decides the outcome, whatever the record held before. */
  lemma {:induction false} ApplyOneLastMatch<T(!new), P>(t: T, updates: seq<(string, P)>, idOf: T -> string, merge: (T, P) -> T, j: nat)
    requires WholeRecordUpdates(updates, idOf, merge)
    requires j < |updates| && updates[j].0 == idOf(t)
    requires forall k :: j < k < |updates| ==> updates[k].0 != idOf(t)
    ensures ApplyOne(t, updates, idOf, merge) == merge(t, updates[j].1)
  {
    var before, last := updates[..|updates| - 1], updates[|updates| - 1];
    ApplyOneKeepsId(t, before, idOf, merge);
    if j < |updates| - 1 {
      assert WholeRecordUpdates(before, idOf, merge) by {
        forall i, t1: T, t2: T | 0 <= i < |before|
          ensures merge(t1, before[i].1) == merge(t2, before[i].1) && idOf(merge(t1, before[i].1)) == before[i].0
        {
          assert before[i] == updates[i];
        }
      }
      ApplyOneLastMatch(t, before, idOf, merge, j);
    }
  }

  /** Two records with the same id that some update is sent to come out of
      a batch of whole-record updates equal. */
  lemma ApplyOneMentioned<T(!new), P>(t1: T, t2: T, updates: seq<(string, P)>, idOf: T -> string, merge: (T, P) -> T)
    requires WholeRecordUpdates(updates, idOf, merge)
    requires idOf(t1) == idOf(t2) && Mentions(updates, idOf(t1))
    ensures ApplyOne(t1, updates, idOf, merge) == ApplyOne(t2, updates, idOf, merge)
  {
    var j := LastMention(updates, idOf(t1));
    ApplyOneLastMatch(t1, updates, idOf, merge, j);
    ApplyOneLastMatch(t2, updates, idOf, merge, j);
  }

  /** The position of the last update sent to `id`. */
  function LastMention<P>(updates: seq<(string, P)>, id: string): (j: nat)
    requires Mentions(updates, id)
    ensures j < |updates| && updates[j].0 == id
    ensures forall k :: j < k < |updates| ==> updates[k].0 != id
  {
    if updates[|updates| - 1].0 == id then |updates| - 1
    else
      var before := updates[..|updates| - 1];
      assert Mentions(before, id) by {
        var j :| 0 <= j < |updates| && updates[j].0 == id;
        assert before[j] == updates[j];
      }
      LastMention(before, id)
  }

  /** Running the same batch of whole-record updates a second time changes
      nothing. */
  lemma ApplyAllTwice<T(!new), P>(s: seq<T>, updates: seq<(string, P)>, idOf: T -> string, merge: (T, P) -> T)
    requires WholeRecordUpdates(updates, idOf, merge)
    ensures ApplyAll(ApplyAll(s, updates, idOf, merge), updates, idOf, merge) == ApplyAll(s, updates, idOf, merge)
  {
    var once := ApplyAll(s, updates, idOf, merge);
    forall i | 0 <= i < |s|
      ensures ApplyAll(once, updates, idOf, merge)[i] == once[i]
    {
      ApplyAllAt(s, updates, idOf, merge, i);
      ApplyAllAt(once, updates, idOf, merge, i);
      ApplyOneKeepsId(s[i], updates, idOf, merge);
      if Mentions(updates, idOf(s[i])) {
        ApplyOneMentioned(once[i], s[i], updates, idOf, merge);
      } else {
        ApplyOneUnmentioned(s[i], updates, idOf, merge);
      }
    }
  }

  /** No two records of the list share an id. */
  ghost predicate DistinctIds<T>(s: seq<T>, idOf: T -> string)
  {
    forall i, j :: 0 <= i < j < |s| ==> idOf(s[i]) != idOf(s[j])
  }

  /** When the list's ids are distinct and the batch sends its i-th update to
      the i-th record, every record receives exactly its own update. */
  lemma ApplyAllOwnUpdates<T(!new), P>(s: seq<T>, updates: seq<(string, P)>, idOf: T -> string, merge: (T, P) -> T)
    requires WholeRecordUpdates(updates, idOf, merge)
    requires DistinctIds(s, idOf)
    requires |updates| == |s| && forall i :: 0 <= i < |s| ==> updates[i].0 == idOf(s[i])
    ensures forall i :: 0 <= i < |s| ==> ApplyAll(s, updates, idOf, merge)[i] == merge(s[i], updates[i].1)
  {
    forall i | 0 <= i < |s|
      ensures ApplyAll(s, updates, idOf, merge)[i] == merge(s[i], updates[i].1)
    {
      ApplyAllAt(s, updates, idOf, merge, i);
      ApplyOneLastMatch(s[i], updates, idOf, merge, i);
    }
  }
}
