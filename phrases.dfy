/** The phrase tests of the two voice front-ends (URL_Server/server.py and
    speech_tasks/speech.py): an utterance is a wake word, or an exit
    command, when one of a fixed list of phrases occurs in its lower-cased
    text. Both files use the same three wake phrases and the same test. */
module Phrases {
  import opened Wrappers
  import opened Text

  const WakeWords: seq<string> := ["hey vista", "hi vista", "hello vista"]

  const ExitPhrases: seq<string> := ["bye vista", "goodbye vista", "exit vista", "close vista"]

  /** Python's truthiness of a `str` or `None`. */
  predicate NonEmpty(text: Option<string>)
  {
    text.Some? && text.value != ""
  }

  /** `is_wake_word`: some wake phrase occurs in the lower-cased text; `None`
      and "" are never wake words. */
  predicate IsWakeWord(text: Option<string>)
    ensures IsWakeWord(text) <==>
              NonEmpty(text) &&
              (Contains(Lower(text.value), "hey vista") ||
               Contains(Lower(text.value), "hi vista") ||
               Contains(Lower(text.value), "hello vista"))
  {
    if NonEmpty(text) then
      var lowered := Lower(text.value);
      assert (exists k :: 0 <= k < |WakeWords| && Contains(lowered, WakeWords[k])) <==>
             Contains(lowered, WakeWords[0]) || Contains(lowered, WakeWords[1]) || Contains(lowered, WakeWords[2]);
      ContainsAny(lowered, WakeWords)
    else
      false
  }

  /** `is_exit_command`: some exit phrase occurs in the lower-cased text;
      `None` and "" are never exit commands. */
  predicate IsExitCommand(text: Option<string>)
    ensures IsExitCommand(text) <==>
              NonEmpty(text) &&
              (Contains(Lower(text.value), "bye vista") ||
               Contains(Lower(text.value), "goodbye vista") ||
               Contains(Lower(text.value), "exit vista") ||
               Contains(Lower(text.value), "close vista"))
  {
    if NonEmpty(text) then
      var lowered := Lower(text.value);
      assert (exists k :: 0 <= k < |ExitPhrases| && Contains(lowered, ExitPhrases[k])) <==>
             Contains(lowered, ExitPhrases[0]) || Contains(lowered, ExitPhrases[1]) ||
             Contains(lowered, ExitPhrases[2]) || Contains(lowered, ExitPhrases[3]);
      ContainsAny(lowered, ExitPhrases)
    else
      false
  }

  /** The test ignores case, and a wake phrase anywhere in the utterance
      counts, whatever is said around it. */
  lemma {:induction false} WakeWordAnywhere(x: string, t: string, y: string)
    requires IsWakeWord(Some(t))
    ensures IsWakeWord(Some(Lower(t)))
    ensures IsWakeWord(Some(x + t + y))
  {
    LowerIdempotent(t);
    LowerConcat(x + t, y);
    LowerConcat(x, t);
    var l := Lower(t);
    if Contains(l, "hey vista") {
      ContainsInContext(Lower(x), l, Lower(y), "hey vista");
    } else if Contains(l, "hi vista") {
      ContainsInContext(Lower(x), l, Lower(y), "hi vista");
    } else {
      ContainsInContext(Lower(x), l, Lower(y), "hello vista");
    }
  }

  /** "goodbye vista" ends in "bye vista", so the second exit phrase never
      decides anything: the exit test is the same with three phrases. */
  lemma ExitPhrasesReduce(text: Option<string>)
    ensures IsExitCommand(text) <==>
              NonEmpty(text) &&
              (Contains(Lower(text.value), "bye vista") ||
               Contains(Lower(text.value), "exit vista") ||
               Contains(Lower(text.value), "close vista"))
  {
    if NonEmpty(text) && Contains(Lower(text.value), "goodbye vista") {
      var good, bye := "good", "bye vista";
      assert good + bye == "goodbye vista";
      assert (good + bye)[|good|..|good| + |bye|] == bye;
      assert OccursAt(good + bye, bye, |good|);
      ContainsMeans(good + bye, bye);
      ContainsTransitive(Lower(text.value), "goodbye vista", "bye vista");
    }
  }

  /** A text that starts with `w` and ends with `e`, both already
      lower-case, holds both once lowered. */
  lemma {:induction false} HoldsBoth(w: string, x: string, e: string)
    requires Lower(w) == w && Lower(e) == e
    ensures Contains(Lower(w + x + e), w) && Contains(Lower(w + x + e), e)
  {
    var lx := Lower(x);
    LowerConcat(w + x, e);
    LowerConcat(w, x);
    assert Lower(w + x + e) == w + lx + e;
    assert Contains(w, w) && Contains(e, e) by {
      assert w[..|w|] == w && e[..|e|] == e;
    }
    ContainsInContext([], w, lx + e, w);
    assert [] + w + (lx + e) == w + lx + e;
    ContainsInContext(w + lx, e, [], e);
    assert w + lx + e + [] == w + lx + e;
  }

  /** An utterance can be both: "hey vista", anything, then "bye vista"
      holds a wake phrase and an exit phrase. */
  lemma WakeAndExitOverlap(x: string)
    ensures IsWakeWord(Some("hey vista" + x + "bye vista"))
    ensures IsExitCommand(Some("hey vista" + x + "bye vista"))
  {
    var wake, exit := "hey vista", "bye vista";
    assert Lower(wake) == wake && Lower(exit) == exit;
    HoldsBoth(wake, x, exit);
  }
}
