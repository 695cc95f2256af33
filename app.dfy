/** The round controller: the phase of the game, the score and time shown,
    the best score so far and the end-of-round commentary with its loading
    flag.

    The handlers are given as functions on a value (Round) and as methods of
    App that assign its fields the way the original calls its state setters.
    The game-over handler is split at its await: EndRound is the part before
    it, CommentaryArrived the part after it, with the comment as a
    parameter. */
module Controller {
  import opened Types

  datatype Round = Round(
    gameState: GameState,
    score: int,
    highScore: int,
    timeLeft: real,
    commentary: string,
    isLoadingCommentary: bool)

  /** The state the component starts in. */
  const Initial: Round := Round(Menu, 0, 0, GameDurationSec, "", false)

  /** handleStartGame: from any phase, a new round is playing with score 0
      and no commentary. */
  function StartGame(r: Round): (n: Round)
    ensures n.gameState == Playing && n.score == 0 && n.commentary == ""
    ensures n.highScore == r.highScore && n.timeLeft == r.timeLeft
    ensures n.isLoadingCommentary == r.isLoadingCommentary
  {
    r.(gameState := Playing, score := 0, commentary := "")
  }

  /** handleGameOver up to its await: the round is over, the best score is
      replaced by the score exactly when the score beats it, and the
      commentary starts loading. */
  function EndRound(r: Round): (n: Round)
    ensures n.gameState == GameOver && n.isLoadingCommentary
    ensures n.highScore >= r.highScore && n.highScore >= r.score
    ensures n.highScore == r.score || n.highScore == r.highScore
    ensures n.highScore != r.highScore <==> r.score > r.highScore
    ensures n.score == r.score && n.timeLeft == r.timeLeft && n.commentary == r.commentary
  {
    var best := if r.score > r.highScore then r.score else r.highScore;
    r.(gameState := GameOver, highScore := best, isLoadingCommentary := true)
  }

  /** handleGameOver after its await: the comment is shown and loading
      stops. Nothing checks that the round the comment was asked for is
      still the current one. */
  function CommentaryArrived(r: Round, comment: string): (n: Round)
    ensures n.commentary == comment && !n.isLoadingCommentary
    ensures n == r.(commentary := comment, isLoadingCommentary := false)
  {
    r.(commentary := comment, isLoadingCommentary := false)
  }

  /** Everything that changes the controller's state: the two handlers,
      the completion of the commentary request, and the canvas's score and
      time callbacks, which are the plain setters. */
  datatype Event = Start | GameEnded | Comment(text: string) | ScoreUpdate(score: int) | TimeUpdate(time: real)

  function Apply(r: Round, e: Event): (n: Round)
    ensures n.highScore >= r.highScore
    ensures e != GameEnded ==> n.highScore == r.highScore
    ensures e.ScoreUpdate? || e.TimeUpdate? ==> n.gameState == r.gameState && n.isLoadingCommentary == r.isLoadingCommentary
  {
    match e
    case Start => StartGame(r)
    case GameEnded => EndRound(r)
    case Comment(text) => CommentaryArrived(r, text)
    case ScoreUpdate(s) => r.(score := s)
    case TimeUpdate(t) => r.(timeLeft := t)
  }

  /** The state after a run of events, applied first to last. */
  function Run(r: Round, es: seq<Event>): (n: Round)
    ensures n.highScore >= r.highScore
    ensures es != [] && es[|es| - 1] == Start ==> n.gameState == Playing && n.score == 0
    ensures es != [] && es[|es| - 1] == GameEnded ==> n.gameState == GameOver && n.isLoadingCommentary
    decreases |es|
  {
    if es == [] then r else Apply(Run(r, es[..|es| - 1]), es[|es| - 1])
  }

  /** The best score never goes down, and only the end of a round can
      change it. */
  lemma {:induction false} HighScoreNeverDrops(r: Round, es: seq<Event>)
    ensures Run(r, es).highScore >= r.highScore
    ensures (forall k :: 0 <= k < |es| ==> es[k] != GameEnded) ==> Run(r, es).highScore == r.highScore
    decreases |es|
  {
    if es != [] {
      var front := es[..|es| - 1];
      HighScoreNeverDrops(r, front);
      assert forall k :: 0 <= k < |front| ==> front[k] == es[k];
    }
  }

  /** Right after a round ends, the best score is at least that round's
      score, whatever happened before. */
  lemma HighScoreCoversLastRound(r: Round, es: seq<Event>)
    ensures var before := Run(r, es);
            var after := Run(r, es + [GameEnded]);
            && after.highScore >= before.score
            && after.highScore >= r.highScore
  {
    var es' := es + [GameEnded];
    assert es'[..|es'| - 1] == es;
    HighScoreNeverDrops(r, es);
  }

  /** A round end not yet answered by a comment: an end of round at index i
      with no comment after it. */
  ghost predicate Unanswered(es: seq<Event>, i: int) {
    0 <= i < |es| && es[i] == GameEnded && forall j :: i < j < |es| ==> !es[j].Comment?
  }

  /** The loading flag is on exactly while a commentary request is
      outstanding: some round end has not been followed by a comment, or the
      flag was already on and no comment has come. */
  lemma {:induction false} LoadingWhilePending(r: Round, es: seq<Event>)
    ensures Run(r, es).isLoadingCommentary <==>
              (exists i :: Unanswered(es, i))
              || (r.isLoadingCommentary && forall j :: 0 <= j < |es| ==> !es[j].Comment?)
    decreases |es|
  {
    if es != [] {
      var n := |es| - 1;
      var front := es[..n];
      LoadingWhilePending(r, front);
      assert forall k :: 0 <= k < n ==> front[k] == es[k];
      match es[n]
      case GameEnded =>
        assert Unanswered(es, n);
      case Comment(_) =>
        assert forall i :: !Unanswered(es, i);
      case _ =>
        assert forall i :: Unanswered(es, i) <==> i < n && Unanswered(front, i);
    }
  }

  /** The commentary is never stale-guarded: a comment requested at the end
      of one round and arriving after the next round has started replaces
      the new round's empty commentary and clears its loading flag. */
  lemma LateCommentLands(r: Round, comment: string)
    ensures var n := CommentaryArrived(StartGame(EndRound(r)), comment);
            && n.gameState == Playing
            && n.commentary == comment
            && !n.isLoadingCommentary
  {
  }

  /** The component's state. */
  class App {
    var gameState: GameState
    var score: int
    var highScore: int
    var timeLeft: real
    var commentary: string
    var isLoadingCommentary: bool

    function State(): Round reads this {
      Round(gameState, score, highScore, timeLeft, commentary, isLoadingCommentary)
    }

    constructor ()
      ensures State() == Initial
    {
      gameState := Menu;
      score := 0;
      highScore := 0;
      timeLeft := GameDurationSec;
      commentary := "";
      isLoadingCommentary := false;
    }

    method HandleStartGame()
      modifies this`gameState, this`score, this`commentary
      ensures State() == StartGame(old(State()))
    {
      gameState := Playing;
      score := 0;
      commentary := "";
    }

    /** handleGameOver up to the point where it waits for the comment. */
    method HandleGameOver()
      modifies this`gameState, this`highScore, this`isLoadingCommentary
      ensures State() == EndRound(old(State()))
    {
      gameState := GameOver;
      if score > highScore {
        highScore := score;
      }
      isLoadingCommentary := true;
    }

    /** The rest of handleGameOver, once the comment has come back. */
    method ReceiveCommentary(comment: string)
      modifies this`commentary, this`isLoadingCommentary
      ensures State() == CommentaryArrived(old(State()), comment)
    {
      commentary := comment;
      isLoadingCommentary := false;
    }

    /** onScoreUpdate, wired to setScore. */
    method SetScore(s: int)
      modifies this`score
      ensures State() == Apply(old(State()), ScoreUpdate(s))
    {
      score := s;
    }

    /** onTimeUpdate, wired to setTimeLeft. */
    method SetTimeLeft(t: real)
      modifies this`timeLeft
      ensures State() == Apply(old(State()), TimeUpdate(t))
    {
      timeLeft := t;
    }
  }
}
