/**
 * Defanging Discord's mass mentions in relayed text: the first `@everyone`
 * becomes `@ everyone`, then the first `@here` becomes `@ here`.
 */
module Mentions {
  import opened Strings

  const Everyone := "@everyone"
  const EveryoneDefanged := "@ everyone"
  const Here := "@here"
  const HereDefanged := "@ here"

  function Neutralise(content: string): (r: string)
    ensures |content| <= |r| <= |content| + 2
  {
    var once := ReplaceFirst(content, Everyone, EveryoneDefanged);
    ReplaceFirstLength(content, Everyone, EveryoneDefanged);
    ReplaceFirstLength(once, Here, HereDefanged);
    ReplaceFirst(once, Here, HereDefanged)
  }

  /** Text is relayed verbatim exactly when it holds neither mass mention. */
  lemma NeutraliseIdentityIff(content: string)
    ensures Neutralise(content) == content <==> !Occurs(content, Everyone) && !Occurs(content, Here)
  {
  }

  /** The message that is exactly one mass mention arrives defanged. */
  lemma NeutraliseBareMentions()
    ensures Neutralise("@everyone") == "@ everyone"
    ensures Neutralise("@here") == "@ here"
  {
    var e := "@everyone";
    assert OccursAt(e, Everyone, 0);
    assert IsFirstOccurrence(e, Everyone, 0);
    var t := "@ everyone";
    assert ReplaceFirst(e, Everyone, EveryoneDefanged) == t;
    forall i: nat
      ensures !OccursAt(t, Here, i)
    {
      if OccursAt(t, Here, i) {
        OccursAtStart(t, Here, i);
        assert false;
      }
    }
    assert !Occurs(t, Here);

    var h := "@here";
    assert !Occurs(h, Everyone);
    assert OccursAt(h, Here, 0);
    assert IsFirstOccurrence(h, Here, 0);
  }
}
