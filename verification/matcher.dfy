/**
 The subset matcher of RuleExtraction/main.py: an observed rule mapping
 satisfies an expected one when every expected key is present and its
 expected labels all occur among the observed labels. Extra observed keys
 and labels are never penalised.
 */
module Matcher {
  import opened Common

  /** A rule mapping: key to a list of labels (any element type). */
  type Rules<T> = map<string, seq<T>>

  /** Expected key `key` is present in `actual` and its labels are covered there. */
  predicate Satisfied<T(==)>(actual: Rules<T>, expected: Rules<T>, key: string)
    requires key in expected
  {
    key in actual && Covers(actual[key], expected[key])
  }

  /** The verdict `compare_joint_positions` returns. */
  predicate Matches<T(==)>(actual: Rules<T>, expected: Rules<T>) {
    forall key :: key in expected ==> Satisfied(actual, expected, key)
  }

  /** The diagnostic printed for one failing expected key. */
  datatype Diagnostic<T> =
    | Mismatch(key: string, expected: seq<T>, actual: seq<T>)
    | Missing(key: string)

  /** A correct diagnostic for an expected key that fails. */
  predicate Reports<T(==)>(actual: Rules<T>, expected: Rules<T>, d: Diagnostic<T>) {
    && d.key in expected
    && !Satisfied(actual, expected, d.key)
    && (d.Missing? <==> d.key !in actual)
    && (d.Mismatch? ==> d.expected == expected[d.key] && d.actual == actual[d.key])
  }

  /**
   `compare_joint_positions`: walks the expected keys, records a diagnostic
   for each one that is missing or not covered, and returns whether none failed.
   The printed messages become the returned diagnostics, one per failing key.
   */
  method CompareJointPositions<T(==)>(actual: Rules<T>, expected: Rules<T>)
    returns (matched: bool, diagnostics: seq<Diagnostic<T>>)
    ensures matched <==> Matches(actual, expected)
    ensures matched <==> diagnostics == []
    ensures forall d :: d in diagnostics ==> Reports(actual, expected, d)
    ensures forall key :: key in expected && !Satisfied(actual, expected, key) ==>
      exists d :: d in diagnostics && d.key == key
    ensures forall i, j :: 0 <= i < j < |diagnostics| ==> diagnostics[i].key != diagnostics[j].key
  {
    matched := true;
    diagnostics := [];
    var remaining := expected.Keys;
    while remaining != {}
      invariant remaining <= expected.Keys
      invariant matched <==> diagnostics == []
      invariant forall d :: d in diagnostics ==> Reports(actual, expected, d) && d.key !in remaining
      invariant forall key :: key in expected && key !in remaining && !Satisfied(actual, expected, key) ==>
        exists d :: d in diagnostics && d.key == key
      invariant forall i, j :: 0 <= i < j < |diagnostics| ==> diagnostics[i].key != diagnostics[j].key
      decreases remaining
    {
      var key :| key in remaining;
      if key in actual {
        if !Covers(actual[key], expected[key]) {
          diagnostics := diagnostics + [Mismatch(key, expected[key], actual[key])];
          matched := false;
        }
      } else {
        diagnostics := diagnostics + [Missing(key)];
        matched := false;
      }
      remaining := remaining - {key};
    }
    if !matched {
      assert diagnostics[0] in diagnostics;
    }
  }

  /** An expected key absent from the observed rules makes the comparison fail. */
  lemma MissingKeyFails<T>(actual: Rules<T>, expected: Rules<T>, key: string)
    requires key in expected && key !in actual
    ensures !Matches(actual, expected)
  {
  }

  /** No expectations, or only empty label lists, are always satisfied. */
  lemma EmptyExpectationsHold<T>(actual: Rules<T>, expected: Rules<T>)
    requires forall key :: key in expected ==> key in actual && expected[key] == []
    ensures Matches(actual, expected)
  {
  }

  /** Observed keys that are not expected never affect the verdict. */
  lemma ExtraKeysIrrelevant<T>(actual: Rules<T>, expected: Rules<T>, key: string, labels: seq<T>)
    requires key !in expected
    ensures Matches(actual[key := labels], expected) <==> Matches(actual, expected)
  {
  }

  /** Each list contributes only its set of elements: order and duplicates do not matter. */
  predicate SameSets<T(==)>(a: Rules<T>, b: Rules<T>) {
    && a.Keys == b.Keys
    && forall key :: key in a ==> Covers(a[key], b[key]) && Covers(b[key], a[key])
  }

  lemma OnlySetsMatter<T>(actual: Rules<T>, actual': Rules<T>, expected: Rules<T>, expected': Rules<T>)
    requires SameSets(actual, actual') && SameSets(expected, expected')
    ensures Matches(actual, expected) <==> Matches(actual', expected')
  {
  }

  /** `bigger` has every key and label of `smaller`, possibly more. */
  predicate Extends<T(==)>(bigger: Rules<T>, smaller: Rules<T>) {
    forall key :: key in smaller ==> key in bigger && Covers(bigger[key], smaller[key])
  }

  /** Adding keys or labels to the observed rules never turns a match into a mismatch. */
  lemma Monotone<T>(actual: Rules<T>, actual': Rules<T>, expected: Rules<T>)
    requires Extends(actual', actual) && Matches(actual, expected)
    ensures Matches(actual', expected)
  {
  }

  /**
   The description parser yields one string per key, and the source hands
   those strings straight to the matcher, whose `set(...)` then compares
   their characters.
   */
  predicate MatchesParsedAsWritten(actual: map<string, string>, expected: map<string, string>) {
    Matches<char>(actual, expected)
  }

  /** Expecting "press" is satisfied by an observed "spread": its characters cover p, r, e, s. */
  lemma PressMatchesSpreadAsWritten()
    ensures MatchesParsedAsWritten(map["arm_position" := "spread"], map["arm_position" := "press"])
  {
  }

  /** Each single-valued rule as the one-element label list the matcher intends. */
  function AsLabelLists(rules: map<string, string>): (r: Rules<string>)
    ensures r.Keys == rules.Keys
    ensures forall key :: key in r ==> r[key] == [rules[key]]
  {
    map key | key in rules :: [rules[key]]
  }

  /** Corrected comparison of single-valued rules: whole labels, not characters. */
  predicate MatchesParsed(actual: map<string, string>, expected: map<string, string>) {
    Matches(AsLabelLists(actual), AsLabelLists(expected))
  }

  /** The corrected comparison holds iff every expected key is observed with exactly the expected value. */
  lemma MatchesParsedMeansEqualValues(actual: map<string, string>, expected: map<string, string>)
    ensures MatchesParsed(actual, expected) <==>
      forall key :: key in expected ==> key in actual && actual[key] == expected[key]
  {
    var a := AsLabelLists(actual);
    var e := AsLabelLists(expected);
    if MatchesParsed(actual, expected) {
      forall key | key in expected ensures key in actual && actual[key] == expected[key] {
        assert Satisfied(a, e, key);
        assert expected[key] in e[key];
      }
    }
  }

  /** With the correction, an observed "spread" no longer satisfies an expected "press". */
  lemma PressDoesNotMatchSpread()
    ensures !MatchesParsed(map["arm_position" := "spread"], map["arm_position" := "press"])
  {
    var actual, expected := map["arm_position" := "spread"], map["arm_position" := "press"];
    MatchesParsedMeansEqualValues(actual, expected);
    assert "arm_position" in expected && actual["arm_position"] != expected["arm_position"];
  }
}
