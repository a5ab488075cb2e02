/** `KatagoService`: the request bookkeeping between the backend and the
    KataGo analysis process, and the single game session.  The process, its
    pipes and JSON parsing are outside the model: a received line comes with
    its parse result, a reply to a request is an `Answer` (delivered by
    `onLine`) or a `Failed` rejection (the timer or the write failing). */
module KatagoService {
  import opened Opt
  import opened Text
  import opened Katago

  /** How a request ends: the engine's answer, or a rejection. */
  datatype Reply = Answer(msg: Json) | Failed(error: string)

  datatype Analysis = Analysis(scoreMean: real, winrate: real, pv: seq<string>, ownership: seq<Json>, candidates: seq<Candidate>)

  datatype PlayResponse = PlayResponse(botMove: string, analysis: Analysis)

  /** What `playGlobal` returns, or the error it throws. */
  datatype Outcome = Played(response: PlayResponse) | Thrown(error: string)

  /** The reply when the first analysis suggests nothing. */
  function PassResponse(res: Json): (r: PlayResponse)
    ensures r.botMove == "PASS" && r.analysis.pv == [] && r.analysis.candidates == []
    ensures r.analysis.winrate == 0.5 && r.analysis.scoreMean == 0.0
    ensures r.analysis.ownership == PickOwnership(Some(res))
  {
    PlayResponse("PASS", Analysis(0.0, 0.5, [], PickOwnership(Some(res)), []))
  }

  /** `(best.move ?? 'PASS').toUpperCase()`: None where that throws, i.e.
      when the move is neither null, undefined nor a string. */
  function BotMoveOf(best: Json): Option<string> {
    var m := Field(Some(best), "move");
    if Nullish(m) then Some(ToUpper("PASS"))
    else if m.value.JStr? then Some(ToUpper(m.value.s))
    else None
  }

  /** The message of the TypeError thrown by `toUpperCase` on a non-string;
      its exact wording is the JavaScript engine's. */
  const NotAString: string := "TypeError"

  /** What the first analysis decides for the bot. */
  datatype BotChoice =
    | Pass            // `!bestBotCand`: no truthy best candidate
    | Commit(move: string)
    | BadMove         // the best candidate's move is not a string

  function ChooseBotMove(res1: Json): BotChoice {
    var best := PickBestCandidate(Some(res1)).best;
    if !Truthy(best) then Pass
    else match BotMoveOf(best.value)
      case Some(m) => Commit(m)
      case None => BadMove
  }

  /** The bot passes exactly when the best candidate is falsy, throws exactly
      when its move is some other value than null, undefined or a string, and
      otherwise commits an upper-case move: the candidate's, or PASS when it
      has none. */
  lemma ChooseBotMoveSpec(res1: Json)
    ensures var best := PickBestCandidate(Some(res1)).best;
            ChooseBotMove(res1).Pass? <==> !Truthy(best)
    ensures var best := PickBestCandidate(Some(res1)).best;
            ChooseBotMove(res1).BadMove? <==>
              Truthy(best) && !Nullish(Field(best, "move")) && !Field(best, "move").value.JStr?
    ensures ChooseBotMove(res1).Commit? ==> ToUpper(ChooseBotMove(res1).move) == ChooseBotMove(res1).move
    ensures var best := PickBestCandidate(Some(res1)).best;
            Truthy(best) && Nullish(Field(best, "move")) ==> ChooseBotMove(res1) == Commit("PASS")
  {
    var best := PickBestCandidate(Some(res1)).best;
    if ChooseBotMove(res1).Commit? {
      var m := Field(best, "move");
      if Nullish(m) {
        ToUpperIdempotent("PASS");
      } else {
        ToUpperIdempotent(m.value.s);
      }
    }
    if Truthy(best) && Nullish(Field(best, "move")) {
      assert ToUpper("PASS") == "PASS";
    }
  }

  /** A lone candidate `0` is falsy, so the bot passes on `{"moveInfos": [0]}`. */
  lemma ZeroCandidatePasses()
    ensures ChooseBotMove(JObj(map["moveInfos" := JArr([JNum(0.0)])])) == Pass
  {
    var res := JObj(map["moveInfos" := JArr([JNum(0.0)])]);
    PickBestCandidateSpec(Some(res));
    assert MoveInfos(Some(res)) == Some(JArr([JNum(0.0)]));
  }

  /** The reply built from the second analysis: the best candidate's score,
      winrate and principal variation, the ownership and the top three. */
  function FinalResponse(botMove: string, res: Json): (r: PlayResponse)
    ensures var p := PickBestCandidate(Some(res));
            && r.botMove == botMove
            && r.analysis.candidates == TopCandidates(p.sorted)
            && r.analysis.ownership == PickOwnership(Some(res))
            && r.analysis.scoreMean == NumberOr(Field(p.best, "scoreMean"), 0.0)
            && r.analysis.winrate == NumberOr(Field(p.best, "winrate"), 0.5)
            && r.analysis.pv == PvOf(p.best)
  {
    var p := PickBestCandidate(Some(res));
    PlayResponse(botMove, Analysis(
      NumberOr(Field(p.best, "scoreMean"), 0.0),
      NumberOr(Field(p.best, "winrate"), 0.5),
      PvOf(p.best),
      PickOwnership(Some(res)),
      TopCandidates(p.sorted)))
  }

  /** The id of a received message: a non-empty string `id` field. */
  function LineId(msg: Json): (r: Option<string>)
    ensures r.Some? <==> Field(Some(msg), "id").Some? && Field(Some(msg), "id").value.JStr? && Field(Some(msg), "id").value.s != []
    ensures r.Some? ==> r.value == Field(Some(msg), "id").value.s
  {
    var f := Field(Some(msg), "id");
    if f.Some? && f.value.JStr? && f.value.s != [] then Some(f.value.s) else None
  }

  class Service {
    /** Whether the engine process is running. */
    var running: bool
    /** The requests waiting for an answer, by id, with the message sent. */
    var pending: map<string, Json>
    /** The number of requests sent. */
    var counter: nat
    /** The single session: the history and the side to move. */
    var moves: seq<(Side, string)>
    var nextColor: Side
    /** The messages written to the engine, in order. */
    ghost var sent: seq<Json>

    /** Every pending id is one already handed out, and the side to move
        alternates from black. */
    ghost predicate Valid()
      reads this
    {
      && (forall id :: id in pending ==> exists n :: 1 <= n <= counter && id == IdOf(n))
      && (nextColor == B <==> |moves| % 2 == 0)
    }

    constructor()
      ensures Valid()
      ensures !running && pending == map[] && counter == 0 && moves == [] && nextColor == B && sent == []
    {
      running := false;
      pending := map[];
      counter := 0;
      moves := [];
      nextColor := B;
      sent := [];
    }

    /** `ensureRunning` (and `warmup`): start the process unless it runs. */
    method EnsureRunning()
      modifies this
      ensures running
      ensures pending == old(pending) && counter == old(counter) && moves == old(moves) && nextColor == old(nextColor) && sent == old(sent)
    {
      if running {
        return;
      }
      running := true;
    }

    /** `send`: the next id `t<counter>`, fresh among the pending ones; the
        message `{ id, ...payload }` is written and waits under that id. */
    method Send(payload: map<string, Json>) returns (id: string)
      requires Valid()
      modifies this
      ensures Valid() && running
      ensures counter == old(counter) + 1 && id == IdOf(counter)
      ensures id !in old(pending)
      ensures pending == old(pending)[id := WithId(id, payload)]
      ensures sent == old(sent) + [WithId(id, payload)]
      ensures moves == old(moves) && nextColor == old(nextColor)
    {
      if !running {
        EnsureRunning();
      }
      counter := counter + 1;
      id := IdOf(counter);
      forall n | 1 <= n < counter ensures IdOf(n) != id {
        IdOfInjective(n, counter);
      }
      var full := WithId(id, payload);
      pending := pending[id := full];
      sent := sent + [full];
    }

    /** The end of a wait without `onLine`: the timer fires or the write
        fails, and the entry goes. */
    method Settle(id: string)
      requires Valid()
      modifies this
      ensures Valid()
      ensures pending == old(pending) - {id}
      ensures running == old(running) && counter == old(counter) && moves == old(moves) && nextColor == old(nextColor) && sent == old(sent)
    {
      pending := pending - {id};
    }

    /** `onLine`: a non-blank line that parses (`msg`) to a message with a
        pending id resolves that request and removes it; any other line
        changes nothing. */
    method OnLine(line: string, msg: Option<Json>) returns (resolved: Option<(string, Json)>)
      requires Valid()
      modifies this
      ensures Valid()
      ensures resolved.Some? <==> Trim(line) != [] && msg.Some? && LineId(msg.value).Some? && LineId(msg.value).value in old(pending)
      ensures resolved.Some? ==> resolved.value == (LineId(msg.value).value, msg.value) && pending == old(pending) - {resolved.value.0}
      ensures resolved.None? ==> pending == old(pending)
      ensures running == old(running) && counter == old(counter) && moves == old(moves) && nextColor == old(nextColor) && sent == old(sent)
    {
      if Trim(line) == [] {
        return None;
      }
      if msg.None? {
        return None;
      }
      var id := LineId(msg.value);
      if id.None? {
        return None;
      }
      if id.value in pending {
        pending := pending - {id.value};
        return Some((id.value, msg.value));
      }
      return None;
    }

    /** `stop`: the process ends and every waiting request is dropped. */
    method Stop()
      requires Valid()
      modifies this
      ensures Valid()
      ensures !running && pending == map[]
      ensures counter == old(counter) && moves == old(moves) && nextColor == old(nextColor) && sent == old(sent)
    {
      pending := map[];
      running := false;
    }

    /** `resetSession`: an empty history with black to move. */
    method ResetSession()
      requires Valid()
      modifies this
      ensures Valid()
      ensures moves == [] && nextColor == B
      ensures running == old(running) && pending == old(pending) && counter == old(counter) && sent == old(sent)
    {
      moves := [];
      nextColor := B;
    }

    /** `moves.push([color, vertex])` and the flip of the side to move. */
    method Push(vertex: string)
      requires Valid()
      modifies this
      ensures Valid()
      ensures moves == old(moves) + [(old(nextColor), vertex)] && nextColor == old(nextColor).Other()
      ensures running == old(running) && pending == old(pending) && counter == old(counter) && sent == old(sent)
    {
      moves := moves + [(nextColor, vertex)];
      nextColor := if nextColor == B then W else B;
    }

    /** `analyzePosition` for the session's history, then the wait for its
        reply: the request is sent and its entry is gone when the reply
        comes. */
    method AnalyzePosition(reply: Reply) returns (res: Reply)
      requires Valid()
      modifies this
      ensures Valid() && running
      ensures res == reply
      ensures counter == old(counter) + 1 && pending == old(pending)
      ensures sent == old(sent) + [WithId(IdOf(counter), AnalysisRequest(old(moves)))]
      ensures moves == old(moves) && nextColor == old(nextColor)
    {
      ghost var before := pending;
      var id := Send(AnalysisRequest(moves));
      ghost var full := pending[id];
      Settle(id);
      UpdateThenRemove(before, id, full);
      res := reply;
    }

    /** The user's half of `playGlobal`: the move is committed in the colour
        to move and the position is analysed. */
    method UserTurn(userMove: string, reply1: Reply) returns (res1: Reply)
      requires Valid()
      modifies this
      ensures Valid() && running && res1 == reply1
      ensures moves == old(moves) + [(old(nextColor), userMove)] && nextColor == old(nextColor).Other()
      ensures counter == old(counter) + 1 && pending == old(pending)
      ensures sent == old(sent) + [WithId(IdOf(counter), AnalysisRequest(moves))]
    {
      Push(userMove);
      res1 := AnalyzePosition(reply1);
    }

    /** The bot's half of `playGlobal`, from the first analysis: with no
        truthy candidate the reply is PASS and nothing changes; a move that
        is not a string throws and nothing changes; otherwise the move is
        committed and the position analysed again. */
    method BotTurn(res1: Json, reply2: Reply) returns (out: Outcome)
      requires Valid()
      modifies this
      ensures Valid() && pending == old(pending)
      ensures !ChooseBotMove(res1).Commit? ==>
                moves == old(moves) && nextColor == old(nextColor) && counter == old(counter) && sent == old(sent)
      ensures ChooseBotMove(res1).Pass? ==> out == Played(PassResponse(res1))
      ensures ChooseBotMove(res1).BadMove? ==> out == Thrown(NotAString)
      ensures ChooseBotMove(res1).Commit? ==>
                var bot := ChooseBotMove(res1).move;
                && moves == old(moves) + [(old(nextColor), bot)]
                && nextColor == old(nextColor).Other()
                && counter == old(counter) + 1
                && sent == old(sent) + [WithId(IdOf(counter), AnalysisRequest(moves))]
                && (reply2.Failed? ==> out == Thrown(reply2.error))
                && (reply2.Answer? ==> out == Played(FinalResponse(bot, reply2.msg)))
    {
      var pick1 := PickBestCandidate(Some(res1));
      if !Truthy(pick1.best) {
        return Played(PassResponse(res1));
      }
      var upper := BotMoveOf(pick1.best.value);
      if upper.None? {
        return Thrown(NotAString);
      }
      var botMove := upper.value;
      Push(botMove);
      var res2 := AnalyzePosition(reply2);
      if res2.Failed? {
        return Thrown(res2.error);
      }
      return Played(FinalResponse(botMove, res2.msg));
    }

    /** `playGlobal` after the empty-move check, for the normalized move:
        the user move is committed and analysed; with no candidate the reply
        is PASS; otherwise the best candidate is committed as the bot's move
        and the position is analysed again.  A failed analysis throws with
        what was committed so far kept. */
    method PlayMove(userMove: string, reply1: Reply, reply2: Reply) returns (out: Outcome)
      requires Valid()
      modifies this
      ensures Valid() && pending == old(pending)
      ensures var user := old(moves) + [(old(nextColor), userMove)];
              && |moves| > |old(moves)| && moves[..|old(moves)| + 1] == user
              && |sent| > |old(sent)| && sent[|old(sent)|] == WithId(IdOf(old(counter) + 1), AnalysisRequest(user))
      ensures reply1.Failed? ==>
                out == Thrown(reply1.error) && |moves| == |old(moves)| + 1 && counter == old(counter) + 1
      ensures reply1.Answer? && !ChooseBotMove(reply1.msg).Commit? ==>
                |moves| == |old(moves)| + 1 && counter == old(counter) + 1
      ensures reply1.Answer? && ChooseBotMove(reply1.msg).Pass? ==> out == Played(PassResponse(reply1.msg))
      ensures reply1.Answer? && ChooseBotMove(reply1.msg).BadMove? ==> out == Thrown(NotAString)
      ensures reply1.Answer? && ChooseBotMove(reply1.msg).Commit? ==>
                var bot := ChooseBotMove(reply1.msg).move;
                var user := old(moves) + [(old(nextColor), userMove)];
                && moves == user + [(old(nextColor).Other(), bot)]
                && counter == old(counter) + 2
                && sent == old(sent) + [WithId(IdOf(old(counter) + 1), AnalysisRequest(user)),
                                        WithId(IdOf(old(counter) + 2), AnalysisRequest(moves))]
                && (reply2.Failed? ==> out == Thrown(reply2.error))
                && (reply2.Answer? ==> out == Played(FinalResponse(bot, reply2.msg)))
    {
      ghost var user := moves + [(nextColor, userMove)];
      ghost var first := WithId(IdOf(counter + 1), AnalysisRequest(user));
      ghost var sent0 := sent;
      var res1 := UserTurn(userMove, reply1);
      assert moves == user && sent == sent0 + [first];
      if res1.Failed? {
        PrefixOfWhole(user);
        return Thrown(res1.error);
      }
      ghost var sent1 := sent;
      ghost var choice := ChooseBotMove(res1.msg);
      ghost var botColour := nextColor;
      out := BotTurn(res1.msg, reply2);
      if !choice.Commit? {
        assert moves == user && sent == sent1;
        PrefixOfWhole(user);
      } else {
        ghost var second := sent[|sent1|];
        assert moves == user + [(botColour, choice.move)];
        assert sent == sent1 + [second];
        PrefixOfSnoc(user, (botColour, choice.move));
        SnocSnoc(sent0, first, second);
      }
    }

    /** `playGlobal`: an empty move throws and changes nothing; any other
        move is normalized and played. */
    method PlayGlobal(move: string, reply1: Reply, reply2: Reply) returns (out: Outcome)
      requires Valid()
      modifies this
      ensures Valid() && pending == old(pending)
      ensures move == [] ==>
                out == Thrown("Falta move") && moves == old(moves) && nextColor == old(nextColor) &&
                counter == old(counter) && sent == old(sent)
      ensures move != [] ==>
                var user := old(moves) + [(old(nextColor), NormalizeKGS(move))];
                && |moves| > |old(moves)| && moves[..|old(moves)| + 1] == user
                && |sent| > |old(sent)| && sent[|old(sent)|] == WithId(IdOf(old(counter) + 1), AnalysisRequest(user))
      ensures move != [] && reply1.Failed? ==>
                out == Thrown(reply1.error) && |moves| == |old(moves)| + 1 && counter == old(counter) + 1
      ensures move != [] && reply1.Answer? && !ChooseBotMove(reply1.msg).Commit? ==>
                |moves| == |old(moves)| + 1 && counter == old(counter) + 1
      ensures move != [] && reply1.Answer? && ChooseBotMove(reply1.msg).Pass? ==> out == Played(PassResponse(reply1.msg))
      ensures move != [] && reply1.Answer? && ChooseBotMove(reply1.msg).BadMove? ==> out == Thrown(NotAString)
      ensures move != [] && reply1.Answer? && ChooseBotMove(reply1.msg).Commit? ==>
                var bot := ChooseBotMove(reply1.msg).move;
                var user := old(moves) + [(old(nextColor), NormalizeKGS(move))];
                && moves == user + [(old(nextColor).Other(), bot)]
                && counter == old(counter) + 2
                && sent == old(sent) + [WithId(IdOf(old(counter) + 1), AnalysisRequest(user)),
                                        WithId(IdOf(old(counter) + 2), AnalysisRequest(moves))]
                && (reply2.Failed? ==> out == Thrown(reply2.error))
                && (reply2.Answer? ==> out == Played(FinalResponse(bot, reply2.msg)))
    {
      if move == [] {
        return Thrown("Falta move");
      }
      out := PlayMove(NormalizeKGS(move), reply1, reply2);
    }
  }

  lemma PrefixOfWhole<T>(s: seq<T>)
    ensures s[..|s|] == s
  {
  }

  lemma PrefixOfSnoc<T>(s: seq<T>, x: T)
    ensures (s + [x])[..|s|] == s
  {
  }

  /** Two appends in a row are one append of both. */
  lemma SnocSnoc(s: seq<Json>, a: Json, b: Json)
    ensures s + [a] + [b] == s + [a, b]
  {
  }

  /** Adding an absent key and removing it again gives the map back. */
  lemma UpdateThenRemove(m: map<string, Json>, id: string, v: Json)
    requires id !in m
    ensures m[id := v] - {id} == m
  {
  }

  /** The service invariant, which the constructor establishes and every
      method keeps, includes that black is to move exactly when the history
      has even length. */
  lemma ColourAlternates(s: Service)
    requires s.Valid()
    ensures s.nextColor == B <==> |s.moves| % 2 == 0
  {
  }
}
