/** The stand-alone voice front-end of speech_tasks/speech.py
    (`VistaCoreAssistant`): listen for a wake word, acknowledge it, hand the
    next recognized command to the registered callback; on an exit phrase
    clear the command, say goodbye and leave after emptying the temporary
    directory. Recognition is an input: each pass receives what the
    recognizer returned, `None` when it understood nothing. */
module Speech {
  import opened Wrappers
  import opened Text
  import opened Phrases

  /** What `play_acknowledgment` says. */
  const Acknowledgment: string := "mm hmm"
  const Farewell: string := "Goodbye!"

  /** What a pass can do that can be observed: say something, call the
      command callback with a text, or run `handle_exit`. */
  datatype Event = Speak(text: string) | Callback(command: string) | Exit

  /** The two recognitions of a pass. The command is only listened for
      after a wake word, so it is ignored otherwise. */
  datatype Hearing = Hearing(wake: Option<string>, command: Option<string>)

  /** One pass of the `while True` body of `handle_conversation`, with or
      without a registered callback. */
  function ConversationTurn(heard: Hearing, hasCallback: bool): (r: seq<Event>)
    ensures Exit in r <==> !IsWakeWord(heard.wake) && IsExitCommand(heard.wake)
    ensures IsWakeWord(heard.wake) ==> |r| > 0 && r[0] == Speak(Acknowledgment)
    ensures IsWakeWord(heard.wake) && NonEmpty(heard.command) && hasCallback ==>
              r == [Speak(Acknowledgment), Callback(heard.command.value)]
    ensures IsWakeWord(heard.wake) && !(NonEmpty(heard.command) && hasCallback) ==>
              r == [Speak(Acknowledgment)]
    ensures Exit in r ==>
              r == (if hasCallback then [Callback("")] else []) + [Speak(Farewell), Exit]
    ensures !IsWakeWord(heard.wake) && !IsExitCommand(heard.wake) ==> r == []
    ensures !hasCallback ==> forall e :: e in r ==> !e.Callback?
  {
    if NonEmpty(heard.wake) && IsWakeWord(heard.wake) then
      if NonEmpty(heard.command) && hasCallback then
        [Speak(Acknowledgment), Callback(heard.command.value)]
      else
        [Speak(Acknowledgment)]
    else if NonEmpty(heard.wake) && IsExitCommand(heard.wake) then
      (if hasCallback then [Callback("")] else []) + [Speak(Farewell), Exit]
    else
      []
  }

  /** The wake test comes first: an utterance holding both a wake phrase and
      an exit phrase (`WakeAndExitOverlap` gives such utterances) is taken as
      a wake word and never ends the program. */
  lemma WakeTakesPriority(t: string, hasCallback: bool, command: Option<string>)
    requires IsWakeWord(Some(t)) && IsExitCommand(Some(t))
    ensures Exit !in ConversationTurn(Hearing(Some(t), command), hasCallback)
    ensures ConversationTurn(Hearing(Some(t), command), hasCallback)[0] == Speak(Acknowledgment)
  {
  }

  /** The passes of one conversation, up to and including the first one that
      runs `handle_exit`, which ends the loop whether it exits or raises.
      Every event is one that some pass produces. */
  function Conversation(hearings: seq<Hearing>, hasCallback: bool): (r: seq<Event>)
    ensures forall e :: e in r ==>
              exists i :: 0 <= i < |hearings| && e in ConversationTurn(hearings[i], hasCallback)
    decreases |hearings|
  {
    if hearings == [] then []
    else
      var first := ConversationTurn(hearings[0], hasCallback);
      if Exit in first then first else first + Conversation(hearings[1..], hasCallback)
  }

  /** `handle_exit` runs exactly when some pass heard an exit phrase
      without a wake phrase. */
  lemma {:induction false} ExitWhenAsked(hearings: seq<Hearing>, hasCallback: bool)
    ensures Exit in Conversation(hearings, hasCallback) <==>
              exists i :: 0 <= i < |hearings| &&
                !IsWakeWord(hearings[i].wake) && IsExitCommand(hearings[i].wake)
    decreases |hearings|
  {
    if hearings != [] {
      var first := ConversationTurn(hearings[0], hasCallback);
      if Exit !in first {
        ExitWhenAsked(hearings[1..], hasCallback);
        assert Conversation(hearings, hasCallback) == first + Conversation(hearings[1..], hasCallback);
        forall i | 1 <= i < |hearings|
          ensures hearings[1..][i - 1] == hearings[i]
        {
        }
      }
    }
  }

  /** A trace that ends with its only `Exit`. */
  predicate EndsWithOnlyExit(r: seq<Event>)
  {
    |r| > 0 && r[|r| - 1] == Exit && Exit !in r[..|r| - 1]
  }

  lemma ExitTurnEnds(heard: Hearing, hasCallback: bool)
    requires Exit in ConversationTurn(heard, hasCallback)
    ensures EndsWithOnlyExit(ConversationTurn(heard, hasCallback))
  {
    var pre := if hasCallback then [Callback("")] else [];
    var r := pre + [Speak(Farewell), Exit];
    assert r[..|r| - 1] == pre + [Speak(Farewell)];
  }

  lemma PrefixKeepsExitLast(first: seq<Event>, rest: seq<Event>)
    requires Exit !in first && EndsWithOnlyExit(rest)
    ensures EndsWithOnlyExit(first + rest)
  {
    assert (first + rest)[..|first + rest| - 1] == first + rest[..|rest| - 1];
  }

  /** `handle_exit` runs at most once, as the very last thing. */
  lemma {:induction false} ExitIsLast(hearings: seq<Hearing>, hasCallback: bool)
    requires Exit in Conversation(hearings, hasCallback)
    ensures EndsWithOnlyExit(Conversation(hearings, hasCallback))
    decreases |hearings|
  {
    var first := ConversationTurn(hearings[0], hasCallback);
    if Exit in first {
      ExitTurnEnds(hearings[0], hasCallback);
    } else {
      var rest := Conversation(hearings[1..], hasCallback);
      ExitIsLast(hearings[1..], hasCallback);
      PrefixKeepsExitLast(first, rest);
    }
  }

  /** The callback only ever receives a command recognized right after a
      wake word, or "" on the way out; without a registered callback it is
      never called. */
  lemma CallbackProtocol(hearings: seq<Hearing>, hasCallback: bool)
    ensures forall e :: e in Conversation(hearings, hasCallback) && e.Callback? ==>
              hasCallback &&
              (e.command == "" ||
               exists i :: 0 <= i < |hearings| && IsWakeWord(hearings[i].wake) &&
                 hearings[i].command == Some(e.command))
  {
    forall e | e in Conversation(hearings, hasCallback) && e.Callback?
      ensures hasCallback &&
              (e.command == "" ||
               exists i :: 0 <= i < |hearings| && IsWakeWord(hearings[i].wake) &&
                 hearings[i].command == Some(e.command))
    {
      var i :| 0 <= i < |hearings| && e in ConversationTurn(hearings[i], hasCallback);
      if e.command != "" {
        assert IsWakeWord(hearings[i].wake) && hearings[i].command == Some(e.command);
      }
    }
  }

  /** The events of a run of passes, up to and including the first one
      that exits. */
  function UntilExit(passes: seq<seq<Event>>): seq<Event>
  {
    if passes == [] then []
    else if Exit in passes[0] then passes[0]
    else passes[0] + UntilExit(passes[1..])
  }

  lemma UntilExitFrom(passes: seq<seq<Event>>, i: nat)
    requires i < |passes|
    ensures UntilExit(passes[i..]) ==
              if Exit in passes[i] then passes[i] else passes[i] + UntilExit(passes[i + 1..])
  {
    var tail := passes[i..];
    assert tail[0] == passes[i];
    assert tail[1..] == passes[i + 1..];
  }

  /** What every pass produces, from what it heard. */
  function Passes(hearings: seq<Hearing>, hasCallback: bool): (r: seq<seq<Event>>)
    ensures |r| == |hearings|
    decreases |hearings|
  {
    if hearings == [] then []
    else [ConversationTurn(hearings[0], hasCallback)] + Passes(hearings[1..], hasCallback)
  }

  lemma {:induction false} PassesAt(hearings: seq<Hearing>, hasCallback: bool, i: nat)
    requires i < |hearings|
    ensures Passes(hearings, hasCallback)[i] == ConversationTurn(hearings[i], hasCallback)
    decreases i
  {
    if i > 0 {
      PassesAt(hearings[1..], hasCallback, i - 1);
    }
  }

  /** A conversation is its passes up to the first that exits. */
  lemma {:induction false} ConversationPasses(hearings: seq<Hearing>, hasCallback: bool)
    ensures Conversation(hearings, hasCallback) == UntilExit(Passes(hearings, hasCallback))
    decreases |hearings|
  {
    if hearings != [] {
      ConversationPasses(hearings[1..], hasCallback);
      assert Passes(hearings, hasCallback)[1..] == Passes(hearings[1..], hasCallback);
    }
  }

  /** The passes of `handle_conversation`'s loop, up to and including the
      one that runs `handle_exit`: the events they produce, and whether one
      of them exited. What a pass does depends only on what it heard and on
      whether a callback is set, so pass `i` is `Passes(hearings, hasCallback)[i]`
      (see `PassesAt`). */
  method Listen(hearings: seq<Hearing>, hasCallback: bool) returns (events: seq<Event>, exited: bool)
    ensures events == Conversation(hearings, hasCallback)
    ensures exited <==> Exit in events
  {
    var passes := Passes(hearings, hasCallback);
    ConversationPasses(hearings, hasCallback);
    assert passes[0..] == passes;
    events := [];
    var i := 0;
    while i < |hearings|
      invariant 0 <= i <= |hearings|
      invariant UntilExit(passes) == events + UntilExit(passes[i..])
      invariant Exit !in events
    {
      UntilExitFrom(passes, i);
      var pass := passes[i];
      ghost var rest := UntilExit(passes[i + 1..]);
      if Exit in pass {
        events := events + pass;
        return events, true;
      }
      assert events + (pass + rest) == (events + pass) + rest;
      events := events + pass;
      i := i + 1;
    }
    assert passes[i..] == [];
    exited := false;
  }

  /** How `handle_exit` ended: `sys.exit(0)`, or the `OSError` that
      `os.rmdir` raises on a directory that still holds files. */
  datatype ExitOutcome = ExitedCleanly | RmdirFailed

  /** How a `text_to_speech` call ends: the file is saved, played and
      removed; gTTS raises before the file is saved; or loading or playing
      the saved file raises, so `os.remove` is skipped. The `except` clause
      swallows both failures. */
  datatype SpeechFault = Played | FailedBeforeSave | FailedAfterSave

  class VistaCoreAssistant {
    /** Whether a callback is set (`command_callback` is not `None`). */
    var hasCallback: bool
    /** The files in `temp_dir`, and whether the directory exists. */
    var tempFiles: set<string>
    var tempDirExists: bool

    /** `mkdtemp` makes a fresh, empty directory; no callback is set. */
    constructor ()
      ensures !hasCallback && tempFiles == {} && tempDirExists
    {
      hasCallback := false;
      tempFiles := {};
      tempDirExists := true;
    }

    /** `set_command_callback(callback)`, where `callback` says whether the
        argument is a function rather than `None`. */
    method SetCommandCallback(callback: bool)
      modifies this
      ensures hasCallback == callback
      ensures tempFiles == old(tempFiles) && tempDirExists == old(tempDirExists)
    {
      hasCallback := callback;
    }

    /** `text_to_speech` into `temp_dir` under `filename`: a played file is
        removed again, a failure after the save leaves the file behind, and
        without the directory the save itself fails. */
    method TextToSpeech(filename: string, fault: SpeechFault)
      modifies this
      ensures hasCallback == old(hasCallback) && tempDirExists == old(tempDirExists)
      ensures !old(tempDirExists) || fault == FailedBeforeSave ==> tempFiles == old(tempFiles)
      ensures old(tempDirExists) && fault == Played ==> tempFiles == old(tempFiles) - {filename}
      ensures old(tempDirExists) && fault == FailedAfterSave ==> tempFiles == old(tempFiles) + {filename}
    {
      if !tempDirExists || fault == FailedBeforeSave {
        return;
      }
      tempFiles := tempFiles + {filename};
      if fault == Played {
        tempFiles := tempFiles - {filename};
      }
    }

    /** `handle_exit`: try to remove every file of `temp_dir`, ignoring the
        removals that fail (those of `stuck`), then remove the directory.
        That succeeds, and the program exits, exactly when no file is left;
        otherwise `os.rmdir` raises and the directory stays with the files
        that could not be removed. */
    method HandleExit(stuck: set<string>) returns (outcome: ExitOutcome)
      modifies this
      ensures hasCallback == old(hasCallback)
      ensures !old(tempDirExists) ==>
                outcome == ExitedCleanly && tempFiles == old(tempFiles) && !tempDirExists
      ensures old(tempDirExists) ==> tempFiles == old(tempFiles) * stuck
      ensures old(tempDirExists) ==> (outcome == ExitedCleanly <==> tempFiles == {})
      ensures outcome == ExitedCleanly ==> !tempDirExists
      ensures outcome == RmdirFailed ==> tempDirExists && tempFiles != {}
    {
      if !tempDirExists {
        return ExitedCleanly;
      }
      var listing := tempFiles;
      while listing != {}
        invariant listing <= tempFiles <= old(tempFiles)
        invariant forall f :: f in old(tempFiles) && f !in listing ==> (f in tempFiles <==> f in stuck)
        invariant tempDirExists && hasCallback == old(hasCallback)
        decreases |listing|
      {
        var file :| file in listing;
        if file !in stuck {
          tempFiles := tempFiles - {file};
        }
        listing := listing - {file};
      }
      assert tempFiles == old(tempFiles) * stuck;
      if tempFiles == {} {
        tempDirExists := false;
        outcome := ExitedCleanly;
      } else {
        outcome := RmdirFailed;
      }
    }

    /** `handle_conversation` over the recognitions of its passes; when a pass
        runs `handle_exit`, the loop ends there. */
    method HandleConversation(hearings: seq<Hearing>, stuck: set<string>)
      returns (events: seq<Event>, outcome: Option<ExitOutcome>)
      modifies this
      ensures events == Conversation(hearings, old(hasCallback))
      ensures outcome.Some? <==> Exit in events
      ensures hasCallback == old(hasCallback)
      ensures outcome.None? ==> tempFiles == old(tempFiles) && tempDirExists == old(tempDirExists)
      ensures outcome.Some? && old(tempDirExists) ==> tempFiles == old(tempFiles) * stuck
      ensures outcome.Some? && old(tempDirExists) ==> (outcome == Some(ExitedCleanly) <==> tempFiles == {})
      ensures outcome.Some? && !old(tempDirExists) ==>
                outcome == Some(ExitedCleanly) && tempFiles == old(tempFiles) && !tempDirExists
      ensures outcome == Some(ExitedCleanly) ==> !tempDirExists
      ensures outcome == Some(RmdirFailed) ==> tempDirExists && tempFiles != {}
    {
      var exited: bool;
      events, exited := Listen(hearings, hasCallback);
      if exited {
        var result := HandleExit(stuck);
        outcome := Some(result);
      } else {
        outcome := None;
      }
    }
  }
}
