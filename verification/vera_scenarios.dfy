/**
 * The classifier on two concrete answers. Each answer is written as the concatenation of
 * its words, so that facts about it are established piece by piece: the letters a keyword
 * needs that the text lacks, and the pieces between spaces that cannot hold a keyword.
 */
module VeraScenarios {
  import opened Wrappers
  import opened Text
  import opened Vera

  /** "je ne suis pas capable d'analyser cette vidéo" gives 0, MIXED and the warning flag. */
  lemma IncapableScenario(lower: string)
    requires lower == "je " + "ne suis pas capable" + " d'analyser cette vidéo"
    ensures Classify(lower).score == 0 && Classify(lower).verdict == MIXED
    ensures FlagsOf(Classify(lower)) == [Flag(Warning, IncapableNote)]
  {
    ContainsInfix("je ", "ne suis pas capable", " d'analyser cette vidéo");
    IncapableDominates(lower);
  }

  /** Letters that never occur in the second scenario text, checked word by word. */
  lemma ScenarioLetters(lower: string)
    requires lower == "ce contenu est" + " " + "confirmé comme" + " " + "authentique et" + " " + "vérifié"
    ensures forall x :: x in "plbjgyxd" ==> x !in lower
  {
    WordLetters("ce contenu est");
    WordLetters("confirmé comme");
    SpacedWordLetters("authentique et");
    SpacedWordLetters("vérifié");
    SpacedWordLetters(" ");
  }

  lemma WordLetters(w: string)
    requires w in ["ce contenu est", "confirmé comme"]
    ensures forall x :: x in "plbjgyxd" ==> x !in w
  {
  }

  lemma SpacedWordLetters(w: string)
    requires w in ["authentique et", "vérifié", " "]
    ensures forall x :: x in "plbjgyxd" ==> x !in w
  {
  }

  lemma WordWithoutUn(w: string)
    requires w in ["ce contenu est", "authentique et"]
    ensures !Contains(w, "un")
  {
    forall i | 0 <= i <= |w| - 2
      ensures !StartsAt(w, "un", i)
    {
      assert w[i..i + 2][0] == w[i];
      assert w[i..i + 2][1] == w[i + 1];
      assert w[i] != 'u' || w[i + 1] != 'n';
    }
  }

  /** `'un moment'` is absent: no word between the spaces holds even `'un'`. */
  lemma ScenarioNoMoment(lower: string)
    requires lower == "ce contenu est" + " " + "confirmé comme" + " " + "authentique et" + " " + "vérifié"
    ensures !Contains(lower, "un moment")
  {
    var a, b, c, d := "ce contenu est", "confirmé comme", "authentique et", "vérifié";
    WordWithoutUn(a);
    AbsentChar(b, "un", 0);
    WordWithoutUn(c);
    AbsentChar(d, "un", 0);
    JoinNotContains(a, ' ', b, "un");
    JoinNotContains(a + [' '] + b, ' ', c, "un");
    JoinNotContains(a + [' '] + b + [' '] + c, ' ', d, "un");
    assert "un moment"[..2] == "un";
    PrefixNotContains(lower, "un moment", 2);
  }

  /** None of the three branches before the confirmation one fires on the second scenario text. */
  lemma ScenarioEarlySilent(lower: string)
    requires lower == "ce contenu est" + " " + "confirmé comme" + " " + "authentique et" + " " + "vérifié"
    ensures !Fires(Incapable, lower) && !Fires(Incomplete, lower) && !Fires(AiGenerated, lower)
  {
    ScenarioLetters(lower);
    ScenarioNotIncapable(lower);
    ScenarioNoMoment(lower);
    AbsentChar(lower, "veuillez patienter", 4);
    AbsentChar(lower, "je vais", 0);
    ScenarioNotAi(lower);
  }

  lemma ScenarioNotIncapable(lower: string)
    requires forall x :: x in "plbjgyxd" ==> x !in lower
    ensures !Fires(Incapable, lower)
  {
    AbsentChar(lower, "ne suis pas capable", 8);
    AbsentChar(lower, "cannot analyze", 10);
    AbsentChar(lower, "ne peux pas analyser", 3);
    AbsentChar(lower, "unable to", 3);
    AbsentChar(lower, "pas capable", 0);
  }

  lemma ScenarioNotAi(lower: string)
    requires forall x :: x in "plbjgyxd" ==> x !in lower
    ensures !Fires(AiGenerated, lower)
  {
    AbsentChar(lower, "généré par ia", 0);
    AbsentChar(lower, "generated by ai", 0);
    AbsentChar(lower, "synthétique détecté", 1);
    AbsentChar(lower, "synthetic detected", 1);
    AbsentChar(lower, "contenu artificiel", 17);
    AbsentChar(lower, "ai-generated", 3);
  }

  /** Past the confirmation branch, the false and misleading tests fail and `'vérifié'` fires. */
  lemma ScenarioLate(lower: string)
    requires lower == "ce contenu est" + " " + "confirmé comme" + " " + "authentique et" + " " + "vérifié"
    ensures !Fires(FalseClaim, lower) && !Fires(Misleading, lower) && Fires(Authentic, lower)
  {
    ScenarioLetters(lower);
    AbsentChar(lower, "faux", 3);
    AbsentChar(lower, "false", 2);
    AbsentChar(lower, "désinformation", 0);
    AbsentChar(lower, "mensonge", 6);
    AbsentChar(lower, "trompeur", 4);
    AbsentChar(lower, "misleading", 3);
    AbsentChar(lower, "manipulé", 4);
    var a := "ce contenu est" + " " + "confirmé comme" + " " + "authentique et" + " ";
    ContainsInfix(a, "vérifié", []);
    assert a + "vérifié" + [] == lower;
  }

  /**
   * "ce contenu est confirmé comme authentique et vérifié" gives 85, VERIFIED and no flag.
   * With the precomposed `é`, `'confirmé'` does not hold `'confirme'`; the outcome is the
   * confirmation one whether that branch or the `'vérifié'` one fires.
   */
  lemma ConfirmedScenario(lower: string)
    requires lower == "ce contenu est" + " " + "confirmé comme" + " " + "authentique et" + " " + "vérifié"
    ensures Classify(lower) == Outcome(85, VERIFIED, VerifiedSummary, None)
    ensures FlagsOf(Classify(lower)) == []
  {
    ScenarioEarlySilent(lower);
    if Fires(Confirmed, lower) {
      ConfirmedAfterSilence(lower);
    } else {
      ScenarioLate(lower);
      AuthenticAfterSilence(lower);
    }
  }

  /** When only the `'vérifié'` test fires among the first seven, the outcome is the confirmation one. */
  lemma AuthenticAfterSilence(lower: string)
    requires !Fires(Incapable, lower) && !Fires(Incomplete, lower) && !Fires(AiGenerated, lower)
    requires !Fires(Confirmed, lower) && !Fires(FalseClaim, lower) && !Fires(Misleading, lower)
    requires Fires(Authentic, lower)
    ensures Classify(lower) == Outcome(85, VERIFIED, VerifiedSummary, None)
  {
    assert Cascade[..6] == [Incapable, Incomplete, AiGenerated, Confirmed, FalseClaim, Misleading];
    Priority(lower, 6);
  }

  /** When the confirmation test is the first to fire, the outcome is the confirmation one. */
  lemma ConfirmedAfterSilence(lower: string)
    requires !Fires(Incapable, lower) && !Fires(Incomplete, lower) && !Fires(AiGenerated, lower)
    requires Fires(Confirmed, lower)
    ensures Classify(lower) == Outcome(85, VERIFIED, VerifiedSummary, None)
  {
    assert Cascade[..3] == [Incapable, Incomplete, AiGenerated];
    Priority(lower, 3);
  }
}
