/** Mapping the chair's raw answer onto a real attendee. */
module Speaker {
  import opened Wrappers
  import opened Text
  import opened State

  const MIN_FUZZY_MATCH_LEN := 3

  predicate Mentions(a: Attendee, needle: string) {
    || Contains(Lower(a.displayName), needle)
    || Contains(Lower(a.title), needle)
    || Contains(Lower(a.id), needle)
  }

  function Matches(roster: seq<Attendee>, needle: string): seq<Id> {
    if roster == [] then []
    else (if Mentions(roster[0], needle) then [roster[0].id] else []) + Matches(roster[1..], needle)
  }

  /** The answer is the closing word itself, whatever its case. */
  predicate SaysFinish(raw: string) {
    Upper(Strip(raw)) == FINISH
  }

  function RecoverSpeakerId(raw: string, roster: seq<Attendee>): Id {
    var candidate := Strip(raw);
    if candidate == "" then FINISH
    else if Attends(candidate, roster) || candidate == FINISH then candidate
    else if Upper(candidate) == FINISH then FINISH
    else
      var needle := Lower(candidate);
      if |needle| < MIN_FUZZY_MATCH_LEN then FINISH
      else
        var matches := Matches(roster, needle);
        if |matches| == 1 then matches[0] else FINISH
  }

  lemma MatchesAttend(roster: seq<Attendee>, needle: string)
    ensures forall x :: x in Matches(roster, needle) ==>
              exists i :: 0 <= i < |roster| && roster[i].id == x && Mentions(roster[i], needle)
  {
    if roster != [] {
      MatchesAttend(roster[1..], needle);
      forall x | x in Matches(roster, needle)
        ensures exists i :: 0 <= i < |roster| && roster[i].id == x && Mentions(roster[i], needle)
      {
        if x in Matches(roster[1..], needle) {
          var j :| 0 <= j < |roster[1..]| && roster[1..][j].id == x && Mentions(roster[1..][j], needle);
          assert roster[j + 1].id == x;
        } else {
          assert roster[0].id == x;
        }
      }
    }
  }

  lemma MatchesComplete(roster: seq<Attendee>, needle: string, i: nat)
    requires i < |roster| && Mentions(roster[i], needle)
    ensures roster[i].id in Matches(roster, needle)
  {
    if i > 0 {
      assert roster[1..][i - 1] == roster[i];
      MatchesComplete(roster[1..], needle, i - 1);
    }
  }

  /** Two attendees that mention the same text leave two candidates. */
  lemma MatchesAmbiguous(roster: seq<Attendee>, needle: string, i: nat, j: nat)
    requires i < j < |roster| && Mentions(roster[i], needle) && Mentions(roster[j], needle)
    ensures |Matches(roster, needle)| >= 2
  {
    assert roster[1..][j - 1] == roster[j];
    if i == 0 {
      MatchesComplete(roster[1..], needle, j - 1);
    } else {
      assert roster[1..][i - 1] == roster[i];
      MatchesAmbiguous(roster[1..], needle, i - 1, j - 1);
    }
  }

  lemma MatchesNone(roster: seq<Attendee>, needle: string)
    requires forall j :: 0 <= j < |roster| ==> !Mentions(roster[j], needle)
    ensures Matches(roster, needle) == []
  {
  }

  lemma MatchesLone(roster: seq<Attendee>, needle: string, i: nat)
    requires i < |roster| && Mentions(roster[i], needle)
    requires forall j :: 0 <= j < |roster| && j != i ==> !Mentions(roster[j], needle)
    ensures Matches(roster, needle) == [roster[i].id]
  {
    if i == 0 {
      MatchesNone(roster[1..], needle);
    } else {
      assert roster[1..][i - 1] == roster[i];
      MatchesLone(roster[1..], needle, i - 1);
    }
  }

  /** The attendee's name, title or id has the text in it, up to the case of letters. */
  ghost predicate Alludes(text: string, a: Attendee) {
    Holds(a.displayName, text) || Holds(a.title, text) || Holds(a.id, text)
  }

  ghost predicate AlludesAlone(text: string, roster: seq<Attendee>, i: nat)
    requires i < |roster|
  {
    Alludes(text, roster[i]) && forall j :: 0 <= j < |roster| && j != i ==> !Alludes(text, roster[j])
  }

  lemma MentionsExactly(a: Attendee, text: string)
    ensures Mentions(a, Lower(text)) <==> Alludes(text, a)
  {
    HoldsExactly(a.displayName, text);
    HoldsExactly(a.title, text);
    HoldsExactly(a.id, text);
  }

  lemma FinishExactly(raw: string)
    ensures SaysFinish(raw) <==> SameLetters(Strip(raw), "FINISH")
  {
    assert Upper("FINISH") == "FINISH";
    UpperExactly(Strip(raw), "FINISH");
  }

  /** What an answer may mean: an attendee's id, or at least three characters of text that stand
      in the name, title or id of exactly one attendee. */
  ghost predicate Names(raw: string, roster: seq<Attendee>, a: Id) {
    var candidate := Strip(raw);
    if Attends(candidate, roster) then a == candidate
    else
      && |candidate| >= 3 && !SameLetters(candidate, "FINISH")
      && exists i :: 0 <= i < |roster| && roster[i].id == a && AlludesAlone(candidate, roster, i)
  }

  lemma LoneMatch(candidate: string, roster: seq<Attendee>, i: nat)
    requires GoodRoster(roster) && i < |roster|
    ensures (|Matches(roster, Lower(candidate))| == 1 && Matches(roster, Lower(candidate))[0] == roster[i].id)
            <==> AlludesAlone(candidate, roster, i)
  {
    var needle := Lower(candidate);
    forall j | 0 <= j < |roster| ensures Mentions(roster[j], needle) <==> Alludes(candidate, roster[j]) {
      MentionsExactly(roster[j], candidate);
    }
    if AlludesAlone(candidate, roster, i) {
      MatchesLone(roster, needle, i);
    } else if |Matches(roster, needle)| == 1 && Matches(roster, needle)[0] == roster[i].id {
      LoneIsOnly(roster, needle, i);
    }
  }

  lemma LoneIsOnly(roster: seq<Attendee>, needle: string, i: nat)
    requires GoodRoster(roster) && i < |roster|
    requires |Matches(roster, needle)| == 1 && Matches(roster, needle)[0] == roster[i].id
    ensures Mentions(roster[i], needle) && forall j :: 0 <= j < |roster| && j != i ==> !Mentions(roster[j], needle)
  {
    MatchesAttend(roster, needle);
    assert Matches(roster, needle)[0] in Matches(roster, needle);
    forall j | 0 <= j < |roster| && j != i ensures !Mentions(roster[j], needle) {
      if Mentions(roster[j], needle) {
        MatchesAmbiguous(roster, needle, if i < j then i else j, if i < j then j else i);
      }
    }
  }

  /** An answer of three characters or more that is neither an id nor the closing word is mapped
      to an attendee exactly when it stands in the name, title or id of that one and of nobody
      else, up to the case of letters. */
  lemma RecoveredByName(raw: string, roster: seq<Attendee>, i: nat)
    requires GoodRoster(roster) && i < |roster|
    requires |Strip(raw)| >= 3 && !Attends(Strip(raw), roster) && !SameLetters(Strip(raw), "FINISH")
    ensures RecoverSpeakerId(raw, roster) == roster[i].id
            <==> (Holds(roster[i].displayName, Strip(raw)) || Holds(roster[i].title, Strip(raw)) || Holds(roster[i].id, Strip(raw)))
                 && forall j :: 0 <= j < |roster| && j != i ==>
                      !Holds(roster[j].displayName, Strip(raw)) && !Holds(roster[j].title, Strip(raw))
                      && !Holds(roster[j].id, Strip(raw))
  {
    var candidate := Strip(raw);
    FinishWord(candidate);
    LoneMatch(candidate, roster, i);
    assert forall j :: 0 <= j < |roster| && j != i ==>
        (!Alludes(candidate, roster[j]) <==>
           !Holds(roster[j].displayName, candidate) && !Holds(roster[j].title, candidate) && !Holds(roster[j].id, candidate));
  }

  lemma FinishWord(candidate: string)
    ensures Upper(candidate) == FINISH <==> SameLetters(candidate, "FINISH")
  {
    assert Upper("FINISH") == "FINISH";
    UpperExactly(candidate, "FINISH");
  }

  /** The resolver returns the one attendee the answer names, and FINISH exactly
      when it names nobody. */
  lemma RecoverExact(raw: string, roster: seq<Attendee>)
    requires GoodRoster(roster)
    ensures var r := RecoverSpeakerId(raw, roster);
            && (r == FINISH || Attends(r, roster))
            && (forall a :: Names(raw, roster, a) <==> r == a && r != FINISH)
            && (SaysFinish(raw) && !Attends(Strip(raw), roster) ==> r == FINISH)
  {
    var r, candidate := RecoverSpeakerId(raw, roster), Strip(raw);
    FinishWord(candidate);
    if !Attends(candidate, roster) && |candidate| >= 3 && !SameLetters(candidate, "FINISH") {
      FoundIsNamed(candidate, roster);
      forall i | 0 <= i < |roster| ensures r == roster[i].id <==> AlludesAlone(candidate, roster, i) {
        LoneMatch(candidate, roster, i);
      }
    } else {
      assert SameLetters("FINISH", "FINISH");
    }
  }

  lemma FoundIsNamed(candidate: string, roster: seq<Attendee>)
    ensures |Matches(roster, Lower(candidate))| == 1 ==> Attends(Matches(roster, Lower(candidate))[0], roster)
  {
    MatchesAttend(roster, Lower(candidate));
    if |Matches(roster, Lower(candidate))| == 1 {
      assert Matches(roster, Lower(candidate))[0] in Matches(roster, Lower(candidate));
    }
  }
}
