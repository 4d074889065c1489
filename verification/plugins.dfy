/**
 * The plugin contract and the text pipeline that the orchestrator runs a
 * final transcript through: command plugins first (the first one that
 * handles the text suppresses typing), otherwise every text processor in
 * registry order, each one receiving the previous one's output.
 */
module Plugins {
  import opened Common

  /** A text processor: `process_text(text, context)` with an empty context. */
  datatype TextProcessorPlugin = TextProcessorPlugin(process: string -> string)

  /** A command plugin: `match_command(text)` and the verdict of
      `execute_command(text, context)` (true: handled, type nothing). */
  datatype CommandPlugin = CommandPlugin(matches: string -> bool, execute: string -> bool)

  /** A plugin instance: the text-processor interface when its class derives
      from `TextProcessorPlugin`, the command interface when it derives from
      `CommandPlugin` (a class may derive from both, or from neither), and
      whether `initialize` and `shutdown` raise. */
  datatype Plugin = Plugin(
    processor: Option<TextProcessorPlugin>,
    command: Option<CommandPlugin>,
    initializeRaises: bool,
    shutdownRaises: bool)

  /** A command both matches the text and reports it handled. */
  predicate Handles(c: CommandPlugin, text: string)
  {
    c.matches(text) && c.execute(text)
  }

  /** The position of the command whose `execute_command` ends the command loop, if any. */
  function FirstHandler(commands: seq<CommandPlugin>, text: string): Option<nat>
  {
    if commands == [] then None
    else if Handles(commands[0], text) then Some(0)
    else match FirstHandler(commands[1..], text)
      case None => None
      case Some(k) => Some(k + 1)
  }

  /** `FirstHandler` finds exactly the first command that handles the text;
      a command that matches but does not handle it lets the loop go on. */
  lemma {:induction false} FirstHandlerIsFirst(commands: seq<CommandPlugin>, text: string)
    ensures FirstHandler(commands, text).Some? ==>
              var k := FirstHandler(commands, text).value;
              k < |commands| && Handles(commands[k], text) &&
              forall j :: 0 <= j < k ==> !Handles(commands[j], text)
    ensures FirstHandler(commands, text).None? ==>
              forall j :: 0 <= j < |commands| ==> !Handles(commands[j], text)
  {
    if commands != [] && !Handles(commands[0], text) {
      FirstHandlerIsFirst(commands[1..], text);
      var rest := FirstHandler(commands[1..], text);
      if rest.None? {
        forall j | 0 <= j < |commands|
          ensures !Handles(commands[j], text)
        {
          if j > 0 { assert commands[j] == commands[1..][j - 1]; }
        }
      } else {
        forall j | 0 <= j < rest.value + 1
          ensures !Handles(commands[j], text)
        {
          if j > 0 { assert commands[j] == commands[1..][j - 1]; }
        }
      }
    }
  }

  /** The positions of the commands whose `execute_command` runs: every
      matching command up to and including the first that handles the text. */
  function Executed(commands: seq<CommandPlugin>, text: string): seq<nat>
  {
    ExecutedFrom(commands, text, 0)
  }

  /** The command loop from position `i` on. */
  function ExecutedFrom(commands: seq<CommandPlugin>, text: string, i: nat): seq<nat>
    requires i <= |commands|
    decreases |commands| - i
  {
    if i == |commands| then []
    else
      (if commands[i].matches(text) then [i] else []) +
      (if Handles(commands[i], text) then [] else ExecutedFrom(commands, text, i + 1))
  }

  /** The command whose action may run at position `k` of a loop started at `i`. */
  predicate RunsFrom(commands: seq<CommandPlugin>, text: string, i: nat, k: nat)
  {
    i <= k < |commands| && commands[k].matches(text) &&
    forall j :: i <= j < k ==> !Handles(commands[j], text)
  }

  /** From position `i` on, a command's action runs exactly when it matches
      and no command between `i` and it handled the text. */
  lemma {:induction false} ExecutedFromExactly(commands: seq<CommandPlugin>, text: string, i: nat)
    requires i <= |commands|
    ensures forall k: nat :: k in ExecutedFrom(commands, text, i) <==> RunsFrom(commands, text, i, k)
    decreases |commands| - i
  {
    if i < |commands| {
      ExecutedFromExactly(commands, text, i + 1);
      var here := if commands[i].matches(text) then [i] else [];
      var rest := if Handles(commands[i], text) then [] else ExecutedFrom(commands, text, i + 1);
      assert ExecutedFrom(commands, text, i) == here + rest;
      forall k: nat
        ensures k in here + rest <==> RunsFrom(commands, text, i, k)
      {
        if k == i {
          assert k !in rest;
        } else if k < i {
          assert k !in rest;
        } else if Handles(commands[i], text) {
          assert !RunsFrom(commands, text, i, k);
        } else {
          assert RunsFrom(commands, text, i, k) <==> RunsFrom(commands, text, i + 1, k);
        }
      }
    }
  }

  /** From position `i` on, the positions come out at least `i` and strictly
      increasing. */
  lemma {:induction false} ExecutedFromIncreasing(commands: seq<CommandPlugin>, text: string, i: nat)
    requires i <= |commands|
    ensures forall a :: 0 <= a < |ExecutedFrom(commands, text, i)| ==> i <= ExecutedFrom(commands, text, i)[a]
    ensures forall a, b :: 0 <= a < b < |ExecutedFrom(commands, text, i)| ==>
              ExecutedFrom(commands, text, i)[a] < ExecutedFrom(commands, text, i)[b]
    decreases |commands| - i
  {
    if i < |commands| {
      ExecutedFromIncreasing(commands, text, i + 1);
      var here := if commands[i].matches(text) then [i] else [];
      var rest := if Handles(commands[i], text) then [] else ExecutedFrom(commands, text, i + 1);
      assert ExecutedFrom(commands, text, i) == here + rest;
      assert forall a :: 0 <= a < |rest| ==> i < rest[a];
    }
  }

  /** A command's action runs exactly when it matches and no earlier command
      handled the text. */
  lemma ExecutedExactly(commands: seq<CommandPlugin>, text: string)
    ensures forall k: nat :: k in Executed(commands, text) <==>
              k < |commands| && commands[k].matches(text) &&
              forall j :: 0 <= j < k ==> !Handles(commands[j], text)
  {
    ExecutedFromExactly(commands, text, 0);
    assert forall k: nat :: RunsFrom(commands, text, 0, k) <==>
             k < |commands| && commands[k].matches(text) &&
             forall j :: 0 <= j < k ==> !Handles(commands[j], text);
  }

  /** The actions run in registry order: positions come out strictly increasing. */
  lemma ExecutedInOrder(commands: seq<CommandPlugin>, text: string)
    ensures forall i, j :: 0 <= i < j < |Executed(commands, text)| ==>
              Executed(commands, text)[i] < Executed(commands, text)[j]
  {
    ExecutedFromIncreasing(commands, text, 0);
  }

  /** The text processors applied as a fold, in order. */
  function ApplyProcessors(processors: seq<TextProcessorPlugin>, text: string): string
  {
    if processors == [] then text else ApplyProcessors(processors[1..], processors[0].process(text))
  }

  /** Appending a processor makes it run last, on the output of all before it. */
  lemma {:induction false} ApplyProcessorsSnoc(processors: seq<TextProcessorPlugin>, p: TextProcessorPlugin, text: string)
    ensures ApplyProcessors(processors + [p], text) == p.process(ApplyProcessors(processors, text))
    decreases |processors|
  {
    if processors != [] {
      assert (processors + [p])[1..] == processors[1..] + [p];
      ApplyProcessorsSnoc(processors[1..], p, processors[0].process(text));
    }
  }

  /** Running two chains one after the other is running their concatenation. */
  lemma {:induction false} ApplyProcessorsAppend(first: seq<TextProcessorPlugin>, second: seq<TextProcessorPlugin>, text: string)
    ensures ApplyProcessors(first + second, text) == ApplyProcessors(second, ApplyProcessors(first, text))
    decreases |first|
  {
    if first != [] {
      assert (first + second)[1..] == first[1..] + second;
      ApplyProcessorsAppend(first[1..], second, first[0].process(text));
    } else {
      assert first + second == second;
    }
  }

  /** `_process_through_plugins`: the empty string when a command handles the
      text, otherwise the text processors' fold. */
  function ProcessThroughPlugins(commands: seq<CommandPlugin>, processors: seq<TextProcessorPlugin>, text: string): string
  {
    if FirstHandler(commands, text).Some? then "" else ApplyProcessors(processors, text)
  }

  /** The output is empty because a command handled the text exactly when some
      command handles it; with no handling command it is the processor fold. */
  lemma PipelineOutcome(commands: seq<CommandPlugin>, processors: seq<TextProcessorPlugin>, text: string)
    ensures (exists k :: 0 <= k < |commands| && Handles(commands[k], text)) ==>
              ProcessThroughPlugins(commands, processors, text) == ""
    ensures (forall k :: 0 <= k < |commands| ==> !Handles(commands[k], text)) ==>
              ProcessThroughPlugins(commands, processors, text) == ApplyProcessors(processors, text)
  {
    FirstHandlerIsFirst(commands, text);
  }

  /** A command plugin that recognises exactly the utterance "delete last" and handles it. */
  function DeleteLast(): CommandPlugin
  {
    CommandPlugin((t: string) => t == "delete last", (t: string) => true)
  }

  /** The short-circuit scenario: "delete last" produces nothing to type
      whatever text processors follow, and other text reaches them. */
  lemma DeleteLastShortCircuits(processors: seq<TextProcessorPlugin>, other: string)
    requires other != "delete last"
    ensures ProcessThroughPlugins([DeleteLast()], processors, "delete last") == ""
    ensures Executed([DeleteLast()], "delete last") == [0]
    ensures ProcessThroughPlugins([DeleteLast()], processors, other) == ApplyProcessors(processors, other)
    ensures Executed([DeleteLast()], other) == []
  {
    assert !DeleteLast().matches(other);
    assert [DeleteLast()][1..] == [];
    assert FirstHandler([DeleteLast()], other) == None;
  }
}
