/**
 * Worked examples for the snapshot locators: the snapshot line format of
 * the Moodle page and the element id taken from it.
 */
module SnapshotExamples {
  import opened Text
  import opened Regex
  import opened MoodleHelpers

  /** `[uid: button-123] Button: Add discussion topic`, in three pieces. */
  const ButtonLine := "[uid: button-123]" + " Button: " + "Add discussion topic"
  const ButtonBounds: seq<nat> := [0, 1, 2, 3, 4, 6, 16]

  lemma {:induction false} ButtonFits0()
    ensures forall t :: 0 <= t < 4 ==> FitsFirstTry(UidPattern.atoms[t], ButtonLine, ButtonBounds[t], ButtonBounds[t + 1], true)
  {
    assert ButtonLine[0] == '[' && ButtonLine[1] == 'u' && ButtonLine[2] == 'i' && ButtonLine[3] == 'd';
    forall t | 0 <= t < 4 ensures FitsFirstTry(UidPattern.atoms[t], ButtonLine, ButtonBounds[t], ButtonBounds[t + 1], true) {
      assert t == 0 || t == 1 || t == 2 || t == 3;
    }
  }

  /** `[:\s]+` takes `": "`, up to the `b`. */
  lemma {:induction false} ButtonFits4()
    ensures FitsFirstTry(UidPattern.atoms[4], ButtonLine, 4, 6, true)
  {
    assert ButtonLine[4] == ':' && ButtonLine[5] == ' ' && ButtonLine[6] == 'b';
  }

  /** `[^\]\s,]+` takes `button-123`, up to the `]`. */
  lemma {:induction false} ButtonFits5()
    ensures FitsFirstTry(UidPattern.atoms[5], ButtonLine, 6, 16, true)
  {
    var k := UidPattern.atoms[5].cls;
    assert ButtonLine[16] == ']';
    forall p | 6 <= p < 16 ensures AtomChar(k, ButtonLine[p], true) {
      assert ButtonLine[p] in "button-123";
    }
  }

  /** `UidPattern` takes its first try on the button line. */
  lemma {:induction false} ButtonMatch()
    ensures MatchFrom(UidPattern.atoms, ButtonLine, 0, true) == Some(ButtonBounds)
  {
    ButtonFits0();
    ButtonFits4();
    ButtonFits5();
    FirstTry(UidPattern.atoms, ButtonLine, ButtonBounds, true);
  }

  lemma {:induction false} ButtonSearched()
    ensures Search(UidPattern, ButtonLine) == Some(Match(0, ButtonBounds))
  {
    ButtonMatch();
  }

  /** Line 41: the snapshot line `[uid: button-123] Button: Add discussion
      topic` has the id `button-123`, through the `uid` form. */
  lemma {:induction false} ButtonLineId()
    ensures Capture(UidPattern, ButtonLine) == Some("button-123")
    ensures LineId(ButtonLine) == Some("button-123")
  {
    ButtonSearched();
    var g := Group(UidPattern, ButtonLine, Match(0, ButtonBounds), 0);
    assert g == ButtonLine[6..16] by {
      assert UidPattern.groups[0] == (5, 5) && |ButtonBounds| == |UidPattern.atoms| + 1;
    }
    assert ButtonLine[6..16] == "button-123";
    assert Capture(UidPattern, ButtonLine) == Some(g);
  }

  /** Lower-casing commutes with taking a slice. */
  lemma {:induction false} LowerSlice(s: string, i: nat, j: nat)
    requires i <= j <= |s|
    ensures Lower(s)[i..j] == Lower(s[i..j])
  {
    forall q | 0 <= q < j - i ensures Lower(s)[i..j][q] == Lower(s[i..j])[q] {
      assert Lower(s)[i..j][q] == LowerChar(s[i + q]);
    }
  }

  /** A line holding `sub` at `i` holds it at `i` without regard to case. */
  lemma {:induction false} HoldsIgnoringCase(line: string, sub: string, i: nat)
    requires i + |sub| <= |line| && line[i..i + |sub|] == sub
    ensures Contains(Lower(line), Lower(sub))
  {
    LowerSlice(line, i, i + |sub|);
    assert OccursAt(Lower(line), Lower(sub), i);
    ContainsIff(Lower(line), Lower(sub));
  }

  /** Lines 37 and 41: in a snapshot holding the button line, looking for
      "Add discussion topic" among buttons finds `button-123`. */
  lemma {:induction false} ButtonFound()
    ensures TextUidFrom([ButtonLine], 0, "Add discussion topic", Some("button"), false) == Some("button-123")
  {
    ButtonLineId();
    assert ButtonLine[26..46] == "Add discussion topic";
    HoldsIgnoringCase(ButtonLine, "Add discussion topic", 26);
    assert ButtonLine[6..12] == "button";
    HoldsIgnoringCase(ButtonLine, "button", 6);
    assert TextCandidate(ButtonLine, "Add discussion topic", Some("button"), false);
  }
}
