// The option selector: two order-preserving filters over the snapshot's
// option list, one for the disease option set and one for the status
// option set.
module Selection {
  import opened Records

  /** Array.prototype.filter: the elements of `s` that `keep` accepts, in order. */
  function Filter<T>(s: seq<T>, keep: T -> bool): (r: seq<T>)
    ensures |r| <= |s|
    ensures forall x :: x in r ==> x in s && keep(x)
  {
    if s == [] then [] else (if keep(s[0]) then [s[0]] else []) + Filter(s[1..], keep)
  }

  lemma {:induction false} FilterComplete<T>(s: seq<T>, keep: T -> bool, x: T)
    requires x in s && keep(x)
    ensures x in Filter(s, keep)
  {
    if s[0] != x {
      FilterComplete(s[1..], keep, x);
    }
  }

  lemma {:induction false} FilterAppend<T>(a: seq<T>, b: seq<T>, keep: T -> bool)
    ensures Filter(a + b, keep) == Filter(a, keep) + Filter(b, keep)
  {
    if a == [] {
      assert a + b == b;
    } else {
      assert (a + b)[1..] == a[1..] + b;
      FilterAppend(a[1..], b, keep);
    }
  }

  /** The first conjunct of both filters: `optionSetIds.includes(id) &&
      id === optionSetIds[k]`, where an index past the end reads as undefined. */
  predicate InOptionSet(o: Option, optionSetIds: seq<string>, k: nat) {
    o.optionSet in optionSetIds && k < |optionSetIds| && o.optionSet == optionSetIds[k]
  }

  /** The disease options the selector keeps: in the first option set, with a
      name that is (exactly, character for character) in the vocabulary. */
  predicate IsDisease(o: Option, optionSetIds: seq<string>, vocabulary: seq<string>) {
    |optionSetIds| > 0 && o.optionSet == optionSetIds[0] && o.name in vocabulary
  }

  /** The status options the selector keeps: in the second option set, with a
      code in the vocabulary. */
  predicate IsStatus(o: Option, optionSetIds: seq<string>, vocabulary: seq<string>) {
    |optionSetIds| > 1 && o.optionSet == optionSetIds[1] && o.code in vocabulary
  }

  function Diseases(options: seq<Option>, optionSetIds: seq<string>, vocabulary: seq<string>): seq<Option> {
    Filter(Filter(options, o => InOptionSet(o, optionSetIds, 0)), (o: Option) => o.name in vocabulary)
  }

  function Statuses(options: seq<Option>, optionSetIds: seq<string>, vocabulary: seq<string>): seq<Option> {
    Filter(Filter(options, o => InOptionSet(o, optionSetIds, 1)), (o: Option) => o.code in vocabulary)
  }

  datatype Selected = Selected(diseases: seq<Option>, statuses: seq<Option>)

  /** getOptionsByOptionSetIds, with the two vocabularies passed in. */
  function SelectOptions(metadata: Metadata, optionSetIds: seq<string>,
                         diseaseNames: seq<string>, statusCodes: seq<string>): Selected
  {
    Selected(Diseases(metadata.options, optionSetIds, diseaseNames),
             Statuses(metadata.options, optionSetIds, statusCodes))
  }

  // The three lemmas below determine each selection completely: a selection
  // of a concatenation is the concatenation of the selections, a single
  // option is kept exactly when the predicate holds, and so the result is the
  // subsequence of the accepted options in their original order.

  lemma DiseasesMembers(options: seq<Option>, optionSetIds: seq<string>, vocabulary: seq<string>)
    ensures forall o :: o in Diseases(options, optionSetIds, vocabulary) <==>
                        o in options && IsDisease(o, optionSetIds, vocabulary)
  {
    var bySet := o => InOptionSet(o, optionSetIds, 0);
    var byName := (o: Option) => o.name in vocabulary;
    forall o | o in options && IsDisease(o, optionSetIds, vocabulary)
      ensures o in Diseases(options, optionSetIds, vocabulary)
    {
      FilterComplete(options, bySet, o);
      FilterComplete(Filter(options, bySet), byName, o);
    }
  }

  lemma DiseasesAppend(a: seq<Option>, b: seq<Option>, optionSetIds: seq<string>, vocabulary: seq<string>)
    ensures Diseases(a + b, optionSetIds, vocabulary) ==
            Diseases(a, optionSetIds, vocabulary) + Diseases(b, optionSetIds, vocabulary)
  {
    var bySet := o => InOptionSet(o, optionSetIds, 0);
    var byName := (o: Option) => o.name in vocabulary;
    FilterAppend(a, b, bySet);
    FilterAppend(Filter(a, bySet), Filter(b, bySet), byName);
  }

  lemma DiseasesSingle(o: Option, optionSetIds: seq<string>, vocabulary: seq<string>)
    ensures Diseases([o], optionSetIds, vocabulary) ==
            if IsDisease(o, optionSetIds, vocabulary) then [o] else []
  {
    assert [o][1..] == [];
  }

  lemma StatusesMembers(options: seq<Option>, optionSetIds: seq<string>, vocabulary: seq<string>)
    ensures forall o :: o in Statuses(options, optionSetIds, vocabulary) <==>
                        o in options && IsStatus(o, optionSetIds, vocabulary)
  {
    var bySet := o => InOptionSet(o, optionSetIds, 1);
    var byCode := (o: Option) => o.code in vocabulary;
    forall o | o in options && IsStatus(o, optionSetIds, vocabulary)
      ensures o in Statuses(options, optionSetIds, vocabulary)
    {
      FilterComplete(options, bySet, o);
      FilterComplete(Filter(options, bySet), byCode, o);
    }
  }

  lemma StatusesAppend(a: seq<Option>, b: seq<Option>, optionSetIds: seq<string>, vocabulary: seq<string>)
    ensures Statuses(a + b, optionSetIds, vocabulary) ==
            Statuses(a, optionSetIds, vocabulary) + Statuses(b, optionSetIds, vocabulary)
  {
    var bySet := o => InOptionSet(o, optionSetIds, 1);
    var byCode := (o: Option) => o.code in vocabulary;
    FilterAppend(a, b, bySet);
    FilterAppend(Filter(a, bySet), Filter(b, bySet), byCode);
  }

  lemma StatusesSingle(o: Option, optionSetIds: seq<string>, vocabulary: seq<string>)
    ensures Statuses([o], optionSetIds, vocabulary) ==
            if IsStatus(o, optionSetIds, vocabulary) then [o] else []
  {
    assert [o][1..] == [];
  }
}
