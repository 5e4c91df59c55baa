/** src/text_filter.rs: `make_family_friendly` rewrites two fixed markers, one replacement
  * pair after the other. */
module TextFilter {
  import opened Strings

  /** The replacement pairs, in the order they are applied. */
  const Replacements: seq<(string, string)> := [("curse_word", "oh dear"), ("bad_word", "goodness")]

  /** The text after applying each pair of `pairs`, in order, with `str::replace`. */
  function ApplyPairs(text: string, pairs: seq<(string, string)>): string
    requires forall k :: 0 <= k < |pairs| ==> |pairs[k].0| > 0
    decreases |pairs|
  {
    if pairs == [] then text
    else ApplyPairs(ReplaceAll(text, pairs[0].0, pairs[0].1), pairs[1..])
  }

  lemma {:induction false} ApplyPairsSnoc(text: string, pairs: seq<(string, string)>, last: (string, string))
    requires forall k :: 0 <= k < |pairs| ==> |pairs[k].0| > 0
    requires |last.0| > 0
    ensures ApplyPairs(text, pairs + [last]) == ReplaceAll(ApplyPairs(text, pairs), last.0, last.1)
    decreases |pairs|
  {
    if pairs == [] {
      assert [] + [last] == [last];
    } else {
      assert (pairs + [last])[1..] == pairs[1..] + [last];
      ApplyPairsSnoc(ReplaceAll(text, pairs[0].0, pairs[0].1), pairs[1..], last);
    }
  }

  /** The filter as one expression: first the curse marker, then the bad-word marker. */
  function FamilyFriendly(text: string): string {
    ReplaceAll(ReplaceAll(text, "curse_word", "oh dear"), "bad_word", "goodness")
  }

  /** `make_family_friendly`: the loop over the replacement pairs. */
  method MakeFamilyFriendly(text: string) returns (result: string)
    ensures result == FamilyFriendly(text)
    ensures !Contains(result, "curse_word") && !Contains(result, "bad_word")
  {
    result := text;
    var i := 0;
    while i < |Replacements|
      invariant 0 <= i <= |Replacements|
      invariant result == ApplyPairs(text, Replacements[..i])
    {
      ApplyPairsSnoc(text, Replacements[..i], Replacements[i]);
      assert Replacements[..i + 1] == Replacements[..i] + [Replacements[i]];
      result := ReplaceAll(result, Replacements[i].0, Replacements[i].1);
      i := i + 1;
    }
    assert Replacements[..2] == Replacements;
    FamilyFriendlyClean(text);
  }

  /** Neither marker survives the filter: "oh dear" and "goodness" cannot create one. */
  lemma FamilyFriendlyClean(text: string)
    ensures !Contains(FamilyFriendly(text), "curse_word")
    ensures !Contains(FamilyFriendly(text), "bad_word")
  {
    var curse, bad := "curse_word", "bad_word";
    var mid := ReplaceAll(text, curse, "oh dear");
    assert NoReplacementInside(curse, "oh dear") by {
      forall j | 0 <= j < |curse| ensures !Compatible("oh dear", curse[j..]) {
        assert curse[j..][0] == curse[j];
        if j == 7 {
          assert curse[j..][1] == 'r';
        }
      }
    }
    assert NoOccurrenceFromReplacement(curse, "oh dear") by {
      forall j | 0 <= j < |"oh dear"| ensures !Compatible("oh dear"[j..], curse) {
        assert "oh dear"[j..][0] == "oh dear"[j];
      }
    }
    NoOccurrenceAfterReplace(text, curse, "oh dear", curse);
    assert NoReplacementInside(curse, "goodness") by {
      forall j | 0 <= j < |curse| ensures !Compatible("goodness", curse[j..]) {
        assert curse[j..][0] == curse[j];
      }
    }
    assert NoOccurrenceFromReplacement(curse, "goodness") by {
      forall j | 0 <= j < |"goodness"| ensures !Compatible("goodness"[j..], curse) {
        assert "goodness"[j..][0] == "goodness"[j];
      }
    }
    NoOccurrenceAfterReplace(mid, bad, "goodness", curse);
    assert NoReplacementInside(bad, "goodness") by {
      forall j | 0 <= j < |bad| ensures !Compatible("goodness", bad[j..]) {
        assert bad[j..][0] == bad[j];
      }
    }
    assert NoOccurrenceFromReplacement(bad, "goodness") by {
      forall j | 0 <= j < |"goodness"| ensures !Compatible("goodness"[j..], bad) {
        assert "goodness"[j..][0] == "goodness"[j];
      }
    }
    NoOccurrenceAfterReplace(mid, bad, "goodness", bad);
  }

  /** Text containing neither marker comes back unchanged. */
  lemma FamilyFriendlyUnchanged(text: string)
    requires !Contains(text, "curse_word") && !Contains(text, "bad_word")
    ensures FamilyFriendly(text) == text
  {
    ReplaceAllAbsent(text, "curse_word", "oh dear");
    ReplaceAllAbsent(text, "bad_word", "goodness");
  }

  /** Filtering twice is filtering once. */
  lemma FamilyFriendlyIdempotent(text: string)
    ensures FamilyFriendly(FamilyFriendly(text)) == FamilyFriendly(text)
  {
    FamilyFriendlyClean(text);
    FamilyFriendlyUnchanged(FamilyFriendly(text));
  }

  /** The unit test of src/text_filter.rs, on "Oh curse_word, this is bad_word!" written as
    * the concatenation of its pieces. */
  lemma FamilyFriendlyExample()
    ensures FamilyFriendly("Oh " + "curse_word" + ", this is " + "bad_word" + "!")
         == "Oh " + "oh dear" + ", this is " + "goodness" + "!"
  {
    var curse, bad := "curse_word", "bad_word";
    ReplaceAllSingle("Oh ", ", this is " + bad + "!", curse, "oh dear");
    assert "Oh " + curse + ", this is " + bad + "!" == "Oh " + curse + (", this is " + bad + "!");
    assert "Oh " + "oh dear" + (", this is " + bad + "!") == "Oh " + "oh dear" + ", this is " + bad + "!";
    ReplaceAllSingle("Oh " + "oh dear" + ", this is ", "!", bad, "goodness");
  }
}
