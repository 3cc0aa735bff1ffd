/**
  The order in which a plain JavaScript object lists its own string keys
  (`Object.values`, `JSON.stringify`): ECMAScript's OrdinaryOwnPropertyKeys
  (ECMA-262, section 10.1.11.1) puts the keys that are array indexes first, in
  ascending numeric order, and then every other key in the order it was first
  added. Overwriting an existing key does not move it.
 */
module PropertyKeys {
  import opened Text

  /** 2^32 - 2, the largest array index (ECMA-262, section 6.1.7). */
  const MaxArrayIndex: nat := 4294967294

  /** A key that is the canonical numeral of an array index. */
  predicate IsArrayIndex(k: string)
  {
    Canonical(k) && ParseDecimal(k) <= MaxArrayIndex
  }

  predicate Distinct(keys: seq<string>)
  {
    forall i, j :: 0 <= i < j < |keys| ==> keys[i] != keys[j]
  }

  /** Array-index keys form a prefix and ascend by numeric value. */
  predicate IndexKeysFirst(keys: seq<string>)
  {
    forall i, j :: 0 <= i < j < |keys| && IsArrayIndex(keys[j]) ==>
      IsArrayIndex(keys[i]) && ParseDecimal(keys[i]) < ParseDecimal(keys[j])
  }

  /** A sequence that an object could list as its own keys. */
  predicate PropertyOrdered(keys: seq<string>)
  {
    Distinct(keys) && IndexKeysFirst(keys)
  }

  /** The keys that are not array indexes, in their listed order. */
  function NonIndexKeys(keys: seq<string>): seq<string>
  {
    if keys == [] then []
    else (if IsArrayIndex(keys[0]) then [] else [keys[0]]) + NonIndexKeys(keys[1..])
  }

  /** Puts an array-index key in its numeric place. */
  function InsertIndexKey(keys: seq<string>, k: string): seq<string>
    requires IsArrayIndex(k)
  {
    if keys == [] then [k]
    else if IsArrayIndex(keys[0]) && ParseDecimal(keys[0]) < ParseDecimal(k) then
      [keys[0]] + InsertIndexKey(keys[1..], k)
    else [k] + keys
  }

  /** The object's key list after an assignment to key `k`. */
  function AddKey(keys: seq<string>, k: string): seq<string>
  {
    if k in keys then keys
    else if IsArrayIndex(k) then InsertIndexKey(keys, k)
    else keys + [k]
  }

  lemma {:induction false} NonIndexKeysAppend(keys: seq<string>, k: string)
    ensures NonIndexKeys(keys + [k]) == NonIndexKeys(keys) + (if IsArrayIndex(k) then [] else [k])
  {
    if keys != [] {
      assert (keys + [k])[1..] == keys[1..] + [k];
      NonIndexKeysAppend(keys[1..], k);
    } else {
      assert NonIndexKeys([k]) == (if IsArrayIndex(k) then [] else [k]) + NonIndexKeys([]);
    }
  }

  lemma {:induction false} NonIndexKeysMembers(keys: seq<string>)
    ensures forall x :: x in NonIndexKeys(keys) <==> x in keys && !IsArrayIndex(x)
  {
    if keys != [] {
      NonIndexKeysMembers(keys[1..]);
      assert keys == [keys[0]] + keys[1..];
    }
  }

  /** The keys of `keys` with every repetition after the first dropped. */
  function FirstSeen(keys: seq<string>): seq<string>
  {
    if keys == [] then []
    else
      var init := keys[..|keys| - 1];
      var last := keys[|keys| - 1];
      if last in init then FirstSeen(init) else FirstSeen(init) + [last]
  }

  lemma {:induction false} InsertIndexKeyElements(keys: seq<string>, k: string)
    requires IsArrayIndex(k)
    ensures multiset(InsertIndexKey(keys, k)) == multiset(keys) + multiset{k}
  {
    if keys != [] && IsArrayIndex(keys[0]) && ParseDecimal(keys[0]) < ParseDecimal(k) {
      InsertIndexKeyElements(keys[1..], k);
      assert keys == [keys[0]] + keys[1..];
    }
  }

  lemma {:induction false} InsertIndexKeyNonIndex(keys: seq<string>, k: string)
    requires IsArrayIndex(k)
    ensures NonIndexKeys(InsertIndexKey(keys, k)) == NonIndexKeys(keys)
  {
    if keys == [] {
      assert NonIndexKeys([k]) == [] + NonIndexKeys([]);
    } else if IsArrayIndex(keys[0]) && ParseDecimal(keys[0]) < ParseDecimal(k) {
      InsertIndexKeyNonIndex(keys[1..], k);
      var r := InsertIndexKey(keys, k);
      assert r[1..] == InsertIndexKey(keys[1..], k);
    } else {
      var r := InsertIndexKey(keys, k);
      assert r[1..] == keys;
    }
  }

  lemma InsertIndexKeyMembers(keys: seq<string>, k: string)
    requires IsArrayIndex(k)
    ensures forall x :: x in InsertIndexKey(keys, k) <==> x in keys || x == k
  {
    InsertIndexKeyElements(keys, k);
    forall x ensures x in InsertIndexKey(keys, k) <==> x in keys || x == k {
      assert x in InsertIndexKey(keys, k) <==> x in multiset(InsertIndexKey(keys, k));
      assert x in keys <==> x in multiset(keys);
    }
  }

  /** The head stays in front when it is an index key below `k`. */
  lemma InsertBehindHead(keys: seq<string>, k: string)
    requires PropertyOrdered(keys) && IsArrayIndex(k) && k !in keys
    requires keys != [] && IsArrayIndex(keys[0]) && ParseDecimal(keys[0]) < ParseDecimal(k)
    requires PropertyOrdered(InsertIndexKey(keys[1..], k))
    ensures PropertyOrdered(InsertIndexKey(keys, k))
  {
    var rest := keys[1..];
    InsertIndexKeyMembers(rest, k);
    var r' := InsertIndexKey(rest, k);
    var r := [keys[0]] + r';
    assert InsertIndexKey(keys, k) == r;
    forall j | 0 < j < |r|
      ensures r[0] != r[j]
      ensures IsArrayIndex(r[j]) ==> ParseDecimal(r[0]) < ParseDecimal(r[j])
    {
      HeadBelowInserted(keys, k, j - 1);
    }
    forall i, j | 0 < i < j < |r|
      ensures r[i] != r[j]
      ensures IsArrayIndex(r[j]) ==> IsArrayIndex(r[i]) && ParseDecimal(r[i]) < ParseDecimal(r[j])
    {
      assert r[i] == r'[i - 1] && r[j] == r'[j - 1];
    }
  }

  lemma HeadBelowInserted(keys: seq<string>, k: string, j: nat)
    requires PropertyOrdered(keys) && IsArrayIndex(k) && k !in keys
    requires keys != [] && IsArrayIndex(keys[0]) && ParseDecimal(keys[0]) < ParseDecimal(k)
    requires j < |InsertIndexKey(keys[1..], k)|
    ensures keys[0] != InsertIndexKey(keys[1..], k)[j]
    ensures IsArrayIndex(InsertIndexKey(keys[1..], k)[j]) ==>
      ParseDecimal(keys[0]) < ParseDecimal(InsertIndexKey(keys[1..], k)[j])
  {
    var rest := keys[1..];
    var x := InsertIndexKey(rest, k)[j];
    InsertIndexKeyMembers(rest, k);
    assert x in InsertIndexKey(rest, k);
    if x != k {
      var m :| 0 <= m < |rest| && rest[m] == x;
      assert keys[m + 1] == x;
    }
  }

  /** `k` goes in front when the head is not an index key below it. */
  lemma InsertAtHead(keys: seq<string>, k: string)
    requires PropertyOrdered(keys) && IsArrayIndex(k) && k !in keys
    requires keys != [] && !(IsArrayIndex(keys[0]) && ParseDecimal(keys[0]) < ParseDecimal(k))
    ensures PropertyOrdered([k] + keys)
  {
    var r := [k] + keys;
    forall j | 0 < j < |r|
      ensures r[0] != r[j]
      ensures IsArrayIndex(r[j]) ==> ParseDecimal(k) < ParseDecimal(r[j])
    {
      assert r[j] == keys[j - 1];
      if IsArrayIndex(r[j]) {
        assert IsArrayIndex(keys[0]);
        assert keys[0] != k;
        if ParseDecimal(keys[0]) == ParseDecimal(k) {
          CanonicalInjective(keys[0], k);
        }
      }
    }
  }

  lemma {:induction false} InsertIndexKeyOrdered(keys: seq<string>, k: string)
    requires PropertyOrdered(keys) && IsArrayIndex(k) && k !in keys
    ensures PropertyOrdered(InsertIndexKey(keys, k))
  {
    if keys == [] {
    } else if IsArrayIndex(keys[0]) && ParseDecimal(keys[0]) < ParseDecimal(k) {
      InsertIndexKeyOrdered(keys[1..], k);
      InsertBehindHead(keys, k);
    } else {
      InsertAtHead(keys, k);
    }
  }

  /**
    An assignment keeps the object's key list well formed, adds exactly `k`, and
    disturbs the insertion order of the non-index keys only by appending a new one.
   */
  lemma AddKeyProperties(keys: seq<string>, k: string)
    requires PropertyOrdered(keys)
    ensures PropertyOrdered(AddKey(keys, k))
    ensures forall x :: x in AddKey(keys, k) <==> x in keys || x == k
    ensures NonIndexKeys(AddKey(keys, k)) ==
      if k in keys || IsArrayIndex(k) then NonIndexKeys(keys) else NonIndexKeys(keys) + [k]
  {
    AddKeyKeepsOrder(keys, k);
    if k !in keys {
      if IsArrayIndex(k) {
        InsertIndexKeyNonIndex(keys, k);
      } else {
        NonIndexKeysAppend(keys, k);
      }
    }
  }

  /** The part of `AddKeyProperties` about order and membership alone. */
  lemma AddKeyKeepsOrder(keys: seq<string>, k: string)
    requires PropertyOrdered(keys)
    ensures PropertyOrdered(AddKey(keys, k))
    ensures forall x :: x in AddKey(keys, k) <==> x in keys || x == k
  {
    if k !in keys && IsArrayIndex(k) {
      InsertIndexKeyOrdered(keys, k);
      InsertIndexKeyMembers(keys, k);
    }
  }


  /**
    When the non-index keys of `keys` are the first-seen non-index keys of the
    assignments `written`, one more assignment keeps it so.
   */
  lemma AddKeyFirstSeen(keys: seq<string>, written: seq<string>, k: string)
    requires PropertyOrdered(keys)
    requires forall x :: x in keys <==> x in written
    requires NonIndexKeys(keys) == FirstSeen(NonIndexKeys(written))
    ensures NonIndexKeys(AddKey(keys, k)) == FirstSeen(NonIndexKeys(written + [k]))
  {
    AddKeyProperties(keys, k);
    NonIndexKeysAppend(written, k);
    var before := NonIndexKeys(written);
    if IsArrayIndex(k) {
      assert NonIndexKeys(written + [k]) == before;
    } else {
      var after := before + [k];
      assert NonIndexKeys(written + [k]) == after;
      assert after[..|after| - 1] == before && after[|after| - 1] == k;
      NonIndexKeysMembers(written);
      assert k in before <==> k in keys;
      if k in keys {
        assert FirstSeen(after) == FirstSeen(before);
      } else {
        assert FirstSeen(after) == FirstSeen(before) + [k];
      }
    }
  }

  /** A key list without repetitions has as many entries as it has distinct keys. */
  lemma {:induction false} DistinctCardinality(keys: seq<string>)
    requires Distinct(keys)
    ensures |set x | x in keys| == |keys|
  {
    if keys != [] {
      var init := keys[..|keys| - 1];
      var last := keys[|keys| - 1];
      DistinctCardinality(init);
      assert keys == init + [last];
      assert (set x | x in keys) == (set x | x in init) + {last};
      assert last !in init;
    }
  }
}
