/** A turn of requests and tool rounds as part of a session's run (crates/agent-session/src/worker.rs, turn.rs). */
module TurnRuns {
  import opened Wrappers
  import opened Blocks
  import opened Inputs
  import opened SessionCores
  import opened Conservation
  import opened SessionRuns
  import opened MessageRuns
  import opened Turns

  /** The worker has a message that wrote nothing yet. */
  ghost predicate TakesItsMessage(c: Core) {
    && Sound(c) && Enabled(c, WritesMessage)
    && !c.activity.run.began && c.activity.run.cancel.None?
  }

  lemma {:induction false} NothingExecutesOnceItIsWritten(c: Core, next: nat)
    requires TakesItsMessage(c)
    ensures ExecutesNothing(MessageWritten(c, next).transcript)
  {
    NothingMoreExecutes(c.transcript, [Block(next, User(c.activity.run.turn), None, c.activity.run.kind.content)]);
  }

  /** The session's steps of a message's turn: its message is written, and what the turn's requests and
      rounds make of the transcript. */
  function TurnOfAMessage(after: seq<Block>, next: nat): seq<Occurrence> {
    [Occurrence(WritesMessage, {}, next), Occurrence(Rewrites(after), {}, next)]
  }

  lemma {:induction false} ATurnIsARun(c: Core, after: seq<Block>, next: nat)
    requires TakesItsMessage(c)
    ensures Occurs(c, TurnOfAMessage(after, next))
    ensures After(c, TurnOfAMessage(after, next)) == Wrote(MessageWritten(c, next), after)
  {
    var run := TurnOfAMessage(after, next);
    EveryStepIsSound(c, WritesMessage, {}, next);
    var written := MessageWritten(c, next);
    EveryStepIsSound(written, Rewrites(after), {}, next);
    var rewritten := Wrote(written, after);
    assert run[1..] == [run[1]] && run[1..][1..] == [];
    assert Occurs(rewritten, []) && After(rewritten, []) == rewritten;
    assert Occurs(written, run[1..]) && After(written, run[1..]) == rewritten;
  }

  /** Runs a message's turn from a session whose worker took it. When the turn answers, the action may
      complete: nothing executes, as `Completes` asks. */
  method RunMessage(c: Core, rounds: seq<Round>, resume: Block, next: nat)
    returns (end: TurnEnd, run: seq<Occurrence>)
    requires TakesItsMessage(c) && !IsExecuting(resume)
    requires forall k :: 0 <= k < |rounds| ==> IsRound(rounds[k])
    ensures Occurs(c, run) && Sound(After(c, run))
    ensures end.TurnAnswered? ==> Enabled(After(c, run), Completes)
  {
    NothingExecutesOnceItIsWritten(c, next);
    var after, played;
    end, after, played := RunTurn(MessageWritten(c, next).transcript, false, rounds, resume);
    run := TurnOfAMessage(after, next);
    ATurnIsARun(c, after, next);
    EveryRunConservesMessages(c, run, Pattern(0, None));
  }

  /** The same of an action whose input is in the transcript, as a continuation's, a retry's, a Resume's or an
      accepted edit's. */
  method RunAction(c: Core, rounds: seq<Round>, resume: Block, next: nat)
    returns (end: TurnEnd, run: seq<Occurrence>)
    requires Sound(c) && WorksOnItsTurn(c) && c.activity.run.cancel.None? && ExecutesNothing(c.transcript)
    requires !IsExecuting(resume) && forall k :: 0 <= k < |rounds| ==> IsRound(rounds[k])
    ensures Occurs(c, run) && Sound(After(c, run))
    ensures end.TurnAnswered? ==> Enabled(After(c, run), Completes)
  {
    var after, played;
    end, after, played := RunTurn(c.transcript, false, rounds, resume);
    run := [Occurrence(Rewrites(after), {}, next)];
    ARewriteIsARun(c, after, next);
    EveryStepIsSound(c, Rewrites(after), {}, next);
  }

  lemma {:induction false} ARewriteIsARun(c: Core, after: seq<Block>, next: nat)
    requires Sound(c) && WorksOnItsTurn(c)
    ensures Occurs(c, [Occurrence(Rewrites(after), {}, next)])
    ensures After(c, [Occurrence(Rewrites(after), {}, next)]) == Wrote(c, after)
  {
    var run := [Occurrence(Rewrites(after), {}, next)];
    EveryStepIsSound(c, Rewrites(after), {}, next);
    var rewritten := Wrote(c, after);
    assert run[1..] == [];
    assert Occurs(rewritten, []) && After(rewritten, []) == rewritten;
  }
}
