/** Counting imported keys: why six of them are all six. */
module Keys {
  import opened Containers

  function Elements(s: seq<PublicKey>): (r: set<PublicKey>)
    ensures forall x :: x in r <==> x in s
  {
    set x | x in s
  }

  predicate Distinct(s: seq<PublicKey>) {
    forall i, j :: 0 <= i < j < |s| ==> s[i] != s[j]
  }

  /** A list has as many elements as entries exactly if it repeats none. */
  lemma {:induction false} CountElements(s: seq<PublicKey>)
    ensures |Elements(s)| <= |s|
    ensures |Elements(s)| == |s| <==> Distinct(s)
  {
    if s != [] {
      var init, last := s[..|s| - 1], s[|s| - 1];
      CountElements(init);
      assert s == init + [last];
      assert Elements(s) == Elements(init) + {last};
      assert Distinct(s) <==> Distinct(init) && last !in init;
    }
  }

  /** One attempt to import the keys: the answers for them in order. */
  type Attempt = a: seq<KeyAnswer> | |a| == KEYS witness [Absent, Absent, Absent, Absent, Absent, Absent]

  function ImportedAfter(keys: seq<PublicKey>, attempts: seq<Attempt>): seq<PublicKey>
    requires |keys| == KEYS
  {
    if attempts == [] then []
    else ImportKeys(ImportedAfter(keys, attempts[..|attempts| - 1]), keys, attempts[|attempts| - 1])
  }

  /** Some attempt asked for the key and found it present. */
  ghost predicate Confirmed(keys: seq<PublicKey>, attempts: seq<Attempt>, key: PublicKey)
    requires |keys| == KEYS
  {
    exists n, i :: 0 <= n < |attempts| && 0 <= i < KEYS && keys[i] == key && attempts[n][i].Present?
  }

  lemma {:induction false} ImportFromSound(imported: seq<PublicKey>, keys: seq<PublicKey>, answers: seq<KeyAnswer>,
                                           i: nat)
    requires i <= |keys| == |answers| && Distinct(imported)
    ensures var r := ImportFrom(imported, keys, answers, i).0;
            && Distinct(r)
            && forall k :: k in r ==>
                 k in imported || exists j :: i <= j < |keys| && keys[j] == k && answers[j].Present?
    decreases |keys| - i
  {
    if i < |keys| && !(keys[i] !in imported && answers[i].Broken?) {
      ImportFromSound(if keys[i] in imported || !answers[i].Present? then imported else imported + [keys[i]],
                      keys, answers, i + 1);
    }
  }

  /** The list never repeats a key and holds only configured keys that some attempt has confirmed. */
  lemma {:induction false} ImportedAreConfirmed(keys: seq<PublicKey>, attempts: seq<Attempt>)
    requires |keys| == KEYS
    ensures var r := ImportedAfter(keys, attempts);
            Distinct(r) && forall k :: k in r ==> k in keys && Confirmed(keys, attempts, k)
  {
    if attempts != [] {
      var init, last := attempts[..|attempts| - 1], attempts[|attempts| - 1];
      ImportedAreConfirmed(keys, init);
      ImportFromSound(ImportedAfter(keys, init), keys, last, 0);
      forall k | k in ImportedAfter(keys, attempts)
        ensures k in keys && Confirmed(keys, attempts, k)
      {
        if k in ImportedAfter(keys, init) {
          var n, i :| 0 <= n < |init| && 0 <= i < KEYS && keys[i] == k && init[n][i].Present?;
          assert attempts[n][i].Present?;
        } else {
          var j :| 0 <= j < |keys| && keys[j] == k && last[j].Present?;
          assert attempts[|attempts| - 1][j].Present?;
        }
      }
    }
  }

  /** When six keys have been imported, which is the test for readiness, every configured key has been confirmed
      present, and the six configured keys are different. */
  lemma SixImportedAreAll(keys: seq<PublicKey>, attempts: seq<Attempt>)
    requires |keys| == KEYS && |ImportedAfter(keys, attempts)| >= KEYS
    ensures forall i :: 0 <= i < KEYS ==> Confirmed(keys, attempts, keys[i])
    ensures Distinct(keys)
  {
    var r := ImportedAfter(keys, attempts);
    ImportedAreConfirmed(keys, attempts);
    CountElements(r);
    CountElements(keys);
    assert Elements(r) <= Elements(keys);
    SubsetOfSameSize(Elements(r), Elements(keys));
    assert Elements(r) == Elements(keys);
  }

  lemma SubsetOfSameSize(a: set<PublicKey>, b: set<PublicKey>)
    requires a <= b && |a| >= |b|
    ensures a == b
  {
    assert |b - a| == |b| - |a|;
  }

  /** Different keys that are all found present are all imported, in order. */
  lemma {:induction false} PresentKeysAreImported(keys: seq<PublicKey>, answers: seq<KeyAnswer>, i: nat)
    requires i <= |keys| == |answers| && Distinct(keys)
    requires forall j :: 0 <= j < |answers| ==> answers[j].Present?
    ensures ImportFrom(keys[..i], keys, answers, i).0 == keys
    decreases |keys| - i
  {
    if i < |keys| {
      PresentKeysAreImported(keys, answers, i + 1);
      assert keys[..i + 1] == keys[..i] + [keys[i]];
    } else {
      assert keys[..i] == keys;
    }
  }

  /** The readiness test can succeed, after some attempts with some answers, if and only if the six configured keys
      are different. */
  lemma ReadyExactlyForDistinctKeys(keys: seq<PublicKey>)
    requires |keys| == KEYS
    ensures (exists attempts :: |ImportedAfter(keys, attempts)| >= KEYS) <==> Distinct(keys)
  {
    if Distinct(keys) {
      var attempt: Attempt := [Present, Present, Present, Present, Present, Present];
      PresentKeysAreImported(keys, attempt, 0);
      assert keys[..0] == [];
      assert [attempt][..0] == [];
      assert ImportedAfter(keys, [attempt]) == keys;
    } else if exists attempts :: |ImportedAfter(keys, attempts)| >= KEYS {
      var attempts :| |ImportedAfter(keys, attempts)| >= KEYS;
      SixImportedAreAll(keys, attempts);
      assert false;
    }
  }
}
