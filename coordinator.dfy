/** `EnhancedCoordinator`: allocates each task to the strategy agent
    (q_agent), the source agent (ucb_agent) or both, resolves the source by
    vote when both take part, runs one search with at most one fallback,
    computes the reward and tells the agents that took part. The agents, the
    environment and the synthesizer are collaborators whose answers are given. */
module Coordinator {
  import opened Records
  import Tally

  datatype Allocation = QAgent | UcbAgent | Both

  /** The fields of a task the coordinator reads; difficulty is free text. */
  datatype Task = Task(topic: string, queryTerms: seq<string>, difficulty: string)

  const WarmUpEpisodes: int := 50
  const DefaultStrategy: string := "specific"
  const ExhaustedCost: real := 5.0
  const FailurePenalty: real := -10.0
  const SynthesisWeight: real := 2.0

  /** `allocate_task`'s decision: both agents during warm-up, then by difficulty. */
  function Allocate(episodeCount: int, difficulty: string): (a: Allocation)
    ensures episodeCount < WarmUpEpisodes ==> a == Both
    ensures episodeCount >= WarmUpEpisodes ==> (a == UcbAgent <==> difficulty == "easy")
    ensures episodeCount >= WarmUpEpisodes ==> (a == QAgent <==> difficulty == "hard")
  {
    if episodeCount < WarmUpEpisodes then Both
    else if difficulty == "easy" then UcbAgent
    else if difficulty == "hard" then QAgent
    else Both
  }

  /** `task_allocation_history` has a bucket for every allocation. */
  ghost predicate HistoryValid(history: map<Allocation, nat>) {
    forall a: Allocation :: a in history
  }

  /** The history after one allocation: the chosen bucket goes up by one. */
  function Record(history: map<Allocation, nat>, a: Allocation): (h: map<Allocation, nat>)
    requires HistoryValid(history)
    ensures HistoryValid(h)
    ensures h[a] == history[a] + 1
    ensures forall b :: b != a ==> h[b] == history[b]
  {
    history[a := history[a] + 1]
  }

  /** How many tasks the history has counted. */
  function HistoryTotal(history: map<Allocation, nat>): nat
    requires HistoryValid(history)
  {
    history[QAgent] + history[UcbAgent] + history[Both]
  }

  /** Every allocation counts exactly one more task, and no bucket ever goes down. */
  lemma RecordCountsOneTask(history: map<Allocation, nat>, a: Allocation)
    requires HistoryValid(history)
    ensures HistoryTotal(Record(history, a)) == HistoryTotal(history) + 1
    ensures forall b :: history[b] <= Record(history, a)[b]
  {
  }

  /** The ballots of one vote, by agent. */
  datatype VoteSet = VoteSet(qAgent: string, ucbAgent: string)
  datatype VoteResult = VoteResult(winner: string, strategy: string, votes: VoteSet)

  /** `agent_voting`: the most common ballot, counted in the order q_agent,
      ucb_agent, with the q_agent's proposed strategy. Two ballots always
      elect the q_agent's source: unanimously, or by the tie-break. */
  function AgentVoting(qStrategy: string, qSource: string, ucbSource: string): (r: VoteResult)
    ensures r.votes == VoteSet(qSource, ucbSource)
    ensures r.strategy == qStrategy
    ensures r.winner == qSource
  {
    Tally.FirstOfTwoWins(qSource, ucbSource);
    VoteResult(Tally.MostCommon([qSource, ucbSource]), qStrategy, VoteSet(qSource, ucbSource))
  }

  /** What one call to the environment's search gives: papers and a cost, or an exception. */
  datatype SearchOutcome = Returned(papers: seq<Paper>, cost: real) | Raised

  /** The synthesizer's answer. */
  datatype Synthesis = Synthesis(text: string, quality: real, newTerms: seq<string>)

  /** The collaborators' answers during one task: the agents' state and
      choices, the environment's first and second search, its reward, the
      synthesizer and the task's relevance score. */
  datatype Collaborators<S> = Collaborators(
    state: S,
    episodeCount: int,
    qStrategy: string,
    qSource: string,
    ucbSource: string,
    primary: SearchOutcome,
    backup: SearchOutcome,
    getReward: (seq<Paper>, real) -> real,
    synthesize: (seq<Paper>, seq<string>) -> Synthesis,
    evaluate: seq<Paper> -> real)

  /** A question put to an agent. */
  datatype Query<S> = ChooseAction(state: S) | ChooseSource(topic: string)

  /** The strategy and source the selection step settles on, and the agents it asked. */
  datatype Selection<S> = Selection(strategy: string, source: string, queries: seq<Query<S>>)

  /** Chooses strategy and source according to the allocation. */
  function Select<S>(a: Allocation, task: Task, c: Collaborators<S>): (sel: Selection<S>)
    ensures a == UcbAgent ==> sel == Selection(DefaultStrategy, c.ucbSource, [ChooseSource(task.topic)])
    ensures a == QAgent ==> sel == Selection(c.qStrategy, c.qSource, [ChooseAction(c.state)])
    ensures a == Both ==> sel == Selection(c.qStrategy, c.qSource, [ChooseAction(c.state), ChooseSource(task.topic)])
  {
    match a
    case UcbAgent => Selection(DefaultStrategy, c.ucbSource, [ChooseSource(task.topic)])
    case QAgent => Selection(c.qStrategy, c.qSource, [ChooseAction(c.state)])
    case Both =>
      var vote := AgentVoting(c.qStrategy, c.qSource, c.ucbSource);
      Selection(vote.strategy, vote.winner, [ChooseAction(c.state), ChooseSource(task.topic)])
  }

  /** The fallback source: arXiv for OpenAlex, OpenAlex for anything else. */
  function Alternate(source: string): (alt: string)
    ensures alt != source
    ensures alt == "arxiv" || alt == "openalex"
    ensures source == "openalex" <==> alt == "arxiv"
  {
    if source == "openalex" then "arxiv" else "openalex"
  }

  /** The two providers are each other's fallback. */
  lemma AlternatePairs(source: string)
    requires source == "openalex" || source == "arxiv"
    ensures Alternate(Alternate(source)) == source
  {
  }

  /** A primary search that raised or found nothing sends the task to the fallback. */
  predicate Failed(o: SearchOutcome)
    ensures Failed(o) <==> !(o.Returned? && |o.papers| > 0)
  {
    o.Raised? || o.papers == []
  }

  /** What the search steps end with: the papers, their cost, the source they
      are credited to, and the sources tried in order. */
  datatype Retrieval = Retrieval(papers: seq<Paper>, cost: real, source: string, tried: seq<string>)

  /** The primary search, and the one fallback search when it fails. */
  function Retrieve(source: string, primary: SearchOutcome, backup: SearchOutcome): (r: Retrieval)
    ensures 1 <= |r.tried| <= 2 && r.tried[0] == source
    ensures |r.tried| == 2 <==> Failed(primary)
    ensures |r.tried| == 2 ==> r.tried[1] == Alternate(source)
    ensures !Failed(primary) ==> r == Retrieval(primary.papers, primary.cost, source, [source])
    ensures Failed(primary) && backup.Raised? ==> r.papers == [] && r.cost == ExhaustedCost && r.source == source
    ensures Failed(primary) && backup.Returned? ==> r.papers == backup.papers && r.cost == backup.cost && r.source == Alternate(source)
    ensures r.papers != [] ==> r.source == r.tried[|r.tried| - 1]
  {
    if !Failed(primary) then Retrieval(primary.papers, primary.cost, source, [source])
    else
      var alt := Alternate(source);
      match backup
      case Returned(papers, cost) => Retrieval(papers, cost, alt, [source, alt])
      case Raised => Retrieval([], ExhaustedCost, source, [source, alt])
  }

  /** The reward: the environment's reward plus twice the synthesis quality,
      or the fixed penalty when no papers were found. */
  function TotalReward(papers: seq<Paper>, cost: real, quality: real, getReward: (seq<Paper>, real) -> real): (r: real)
    ensures papers != [] ==> r == getReward(papers, cost) + 2.0 * quality
    ensures papers == [] ==> r == -10.0
  {
    if papers != [] then getReward(papers, cost) + quality * SynthesisWeight else FailurePenalty
  }

  /** The diagnostic record `research_with_fallback` returns. */
  datatype Info = Info(
    strategy: string,
    source: string,
    cost: real,
    relevance: real,
    papersCount: nat,
    synthesis: string,
    synthesisQuality: real,
    newTerms: seq<string>,
    allocation: Allocation,
    sourcesTried: seq<string>,
    fallbackUsed: bool)

  /** A call to the environment's search. */
  datatype SearchCall = SearchCall(strategy: string, source: string)

  /** One search with the given strategy per source tried, in order. */
  function Searches(strategy: string, tried: seq<string>): (calls: seq<SearchCall>)
    ensures |calls| == |tried|
    ensures forall i :: 0 <= i < |tried| ==> calls[i] == SearchCall(strategy, tried[i])
  {
    seq(|tried|, i requires 0 <= i < |tried| => SearchCall(strategy, tried[i]))
  }
  datatype QUpdate<S> = QUpdate(state: S, strategy: string, source: string, reward: real, nextState: S)
  datatype UcbUpdate = UcbUpdate(topic: string, source: string, reward: real)

  /** What the task did to its collaborators: the agents' questions, the
      searches in order and the updates sent to each agent. */
  datatype Effects<S> = Effects(
    queries: seq<Query<S>>,
    searches: seq<SearchCall>,
    qUpdate: Option<QUpdate<S>>,
    ucbUpdate: Option<UcbUpdate>)

  datatype Outcome<S> = Outcome(papers: seq<Paper>, reward: real, info: Info, effects: Effects<S>)

  /** `research_with_fallback` as a function of the task and the collaborators' answers. */
  function Research<S>(task: Task, c: Collaborators<S>): (o: Outcome<S>)
    ensures o.info.allocation == Allocate(c.episodeCount, task.difficulty)
    ensures o.info.papersCount == |o.papers|
  {
    var allocation := Allocate(c.episodeCount, task.difficulty);
    var sel := Select(allocation, task, c);
    var got := Retrieve(sel.source, c.primary, c.backup);
    var synthesis := c.synthesize(got.papers, task.queryTerms);
    var reward := TotalReward(got.papers, got.cost, synthesis.quality, c.getReward);
    var searches := Searches(sel.strategy, got.tried);
    var qUpdate := if allocation == QAgent || allocation == Both
      then Some(QUpdate(c.state, sel.strategy, got.source, reward, c.state)) else None;
    var ucbUpdate := if allocation == UcbAgent || allocation == Both
      then Some(UcbUpdate(task.topic, got.source, reward)) else None;
    var info := Info(
      sel.strategy, got.source, got.cost,
      if got.papers != [] then c.evaluate(got.papers) else 0.0,
      |got.papers|, synthesis.text, synthesis.quality, synthesis.newTerms,
      allocation, got.tried, |got.tried| > 1);
    Outcome(got.papers, reward, info, Effects(sel.queries, searches, qUpdate, ucbUpdate))
  }

  /** The searches made: the selected source first, then, exactly when it
      raised or found nothing, its alternate, all with the selected strategy
      (the default one when the source agent works alone). */
  lemma ResearchSearches<S>(task: Task, c: Collaborators<S>)
    ensures var o := Research(task, c);
      && (o.info.allocation == UcbAgent ==> o.info.strategy == DefaultStrategy)
      && (o.info.allocation != UcbAgent ==> o.info.strategy == c.qStrategy)
      && o.info.sourcesTried[0] == (if o.info.allocation == UcbAgent then c.ucbSource else c.qSource)
      && |o.info.sourcesTried| == |o.effects.searches| && 1 <= |o.info.sourcesTried| <= 2
      && (forall i :: 0 <= i < |o.effects.searches| ==> o.effects.searches[i] == SearchCall(o.info.strategy, o.info.sourcesTried[i]))
      && (o.info.fallbackUsed <==> Failed(c.primary))
      && (o.info.fallbackUsed <==> |o.info.sourcesTried| > 1)
      && (o.info.fallbackUsed ==> o.info.sourcesTried[1] == Alternate(o.info.sourcesTried[0]))
  {
  }

  /** The reward: the environment's reward for the papers found plus twice the
      synthesis quality, or the penalty when nothing was found. */
  lemma ResearchReward<S>(task: Task, c: Collaborators<S>)
    ensures var o := Research(task, c);
      && (o.papers != [] ==> o.reward == c.getReward(o.papers, o.info.cost) + SynthesisWeight * c.synthesize(o.papers, task.queryTerms).quality)
      && (o.papers == [] ==> o.reward == FailurePenalty)
  {
  }

  /** Exactly the agents that took part learn from the task: the strategy
      agent gets the reward with the state as its own next state, the source
      agent the reward credited to the source that produced the papers. */
  lemma ResearchUpdates<S>(task: Task, c: Collaborators<S>)
    ensures var o := Research(task, c);
      && (o.effects.qUpdate.Some? <==> o.info.allocation == QAgent || o.info.allocation == Both)
      && (o.effects.ucbUpdate.Some? <==> o.info.allocation == UcbAgent || o.info.allocation == Both)
      && (o.effects.qUpdate.Some? ==> o.effects.qUpdate.value == QUpdate(c.state, o.info.strategy, o.info.source, o.reward, c.state))
      && (o.effects.ucbUpdate.Some? ==> o.effects.ucbUpdate.value == UcbUpdate(task.topic, o.info.source, o.reward))
  {
  }

  /** Each agent that takes part is asked exactly once: one question for a
      single agent, one to each (q_agent first) when both take part. */
  lemma AgentsAskedOnce<S>(task: Task, c: Collaborators<S>)
    ensures var o := Research(task, c);
      && (o.info.allocation == QAgent ==> o.effects.queries == [ChooseAction(c.state)])
      && (o.info.allocation == UcbAgent ==> o.effects.queries == [ChooseSource(task.topic)])
      && (o.info.allocation == Both ==> o.effects.queries == [ChooseAction(c.state), ChooseSource(task.topic)])
  {
  }

  /** Where the papers come from: the primary source when it found papers;
      otherwise the fallback's answer, credited to the fallback source
      whenever it returned at all, and ([], 5.0) credited to the primary
      source when it raised too. */
  lemma FallbackOutcome<S>(task: Task, c: Collaborators<S>)
    ensures var o := Research(task, c);
      var first := o.info.sourcesTried[0];
      && (!Failed(c.primary) ==> o.papers == c.primary.papers && o.info.cost == c.primary.cost && o.info.source == first)
      && (Failed(c.primary) && c.backup.Returned? ==>
            o.papers == c.backup.papers && o.info.cost == c.backup.cost && o.info.source == Alternate(first))
      && (Failed(c.primary) && c.backup.Raised? ==>
            o.papers == [] && o.info.cost == ExhaustedCost && o.info.source == first && o.reward == FailurePenalty)
  {
  }

  /** A hard task after warm-up whose OpenAlex search and arXiv fallback both
      find nothing ends with no papers, the penalty, and both sources tried. */
  lemma HardTaskBothEmpty<S>(task: Task, c: Collaborators<S>)
    requires task.difficulty == "hard" && c.episodeCount == 100
    requires c.qSource == "openalex"
    requires c.primary.Returned? && c.primary.papers == []
    requires c.backup.Returned? && c.backup.papers == []
    ensures var o := Research(task, c);
      && o.papers == [] && o.reward == FailurePenalty
      && o.info.fallbackUsed && o.info.sourcesTried == ["openalex", "arxiv"]
      && o.info.allocation == QAgent && o.effects.ucbUpdate.None?
  {
  }

  /** An easy task after warm-up is the source agent's alone; three papers
      with quality 0.8 earn the environment's reward plus 1.6. */
  lemma EasyTaskFound<S>(task: Task, c: Collaborators<S>)
    requires task.difficulty == "easy" && c.episodeCount == 200
    requires c.ucbSource == "arxiv"
    requires c.primary.Returned? && |c.primary.papers| == 3
    requires c.synthesize(c.primary.papers, task.queryTerms).quality == 0.8
    ensures var o := Research(task, c);
      && o.papers == c.primary.papers && o.info.source == "arxiv" && o.info.strategy == DefaultStrategy
      && o.reward == c.getReward(c.primary.papers, c.primary.cost) + 1.6
      && o.effects.qUpdate.None? && o.effects.ucbUpdate == Some(UcbUpdate(task.topic, "arxiv", o.reward))
  {
  }

  /** Asks the agents the allocation names: the strategy agent alone, the
      source agent alone with the default strategy, or both, settled by vote. */
  method SelectAgents<S>(allocation: Allocation, task: Task, c: Collaborators<S>) returns (sel: Selection<S>)
    ensures sel == Select(allocation, task, c)
  {
    if allocation == UcbAgent {
      sel := Selection(DefaultStrategy, c.ucbSource, [ChooseSource(task.topic)]);
    } else if allocation == QAgent {
      sel := Selection(c.qStrategy, c.qSource, [ChooseAction(c.state)]);
    } else {
      var vote := AgentVoting(c.qStrategy, c.qSource, c.ucbSource);
      sel := Selection(vote.strategy, vote.winner, [ChooseAction(c.state), ChooseSource(task.topic)]);
    }
  }

  /** Searches the chosen source and, when that raised or found nothing, the
      other one once, recording each search made. */
  method SearchWithFallback(strategy: string, source: string, primary: SearchOutcome, backup: SearchOutcome)
    returns (got: Retrieval, searches: seq<SearchCall>)
    ensures got == Retrieve(source, primary, backup)
    ensures searches == Searches(strategy, got.tried)
  {
    searches := [SearchCall(strategy, source)];
    if primary.Returned? && primary.papers != [] {
      return Retrieval(primary.papers, primary.cost, source, [source]), searches;
    }
    // The primary search raised or found nothing: one fallback attempt.
    var backupSource := Alternate(source);
    searches := searches + [SearchCall(strategy, backupSource)];
    if backup.Returned? {
      got := Retrieval(backup.papers, backup.cost, backupSource, [source, backupSource]);
    } else {
      got := Retrieval([], ExhaustedCost, source, [source, backupSource]);
    }
  }

  class EnhancedCoordinator {
    var history: map<Allocation, nat>

    ghost predicate Valid()
      reads this
    {
      HistoryValid(history)
    }

    constructor ()
      ensures Valid()
      ensures history == map[QAgent := 0, UcbAgent := 0, Both := 0]
    {
      var initial := map[QAgent := 0, UcbAgent := 0, Both := 0];
      forall a: Allocation
        ensures a in initial
      {
        match a
        case QAgent =>
        case UcbAgent =>
        case Both =>
      }
      history := initial;
    }

    /** Decides the allocation and counts it in its bucket. */
    method AllocateTask(episodeCount: int, task: Task) returns (a: Allocation)
      requires Valid()
      modifies this
      ensures Valid()
      ensures a == Allocate(episodeCount, task.difficulty)
      ensures history == Record(old(history), a)
    {
      if episodeCount < WarmUpEpisodes {
        history := Record(history, Both);
        return Both;
      }
      if task.difficulty == "easy" {
        history := Record(history, UcbAgent);
        return UcbAgent;
      } else if task.difficulty == "hard" {
        history := Record(history, QAgent);
        return QAgent;
      } else {
        history := Record(history, Both);
        return Both;
      }
    }

    /** Runs one task step by step: allocate, select, search with fallback,
        synthesize, reward, update the agents that took part. */
    method ResearchWithFallback<S>(task: Task, c: Collaborators<S>) returns (papers: seq<Paper>, totalReward: real, info: Info, effects: Effects<S>)
      requires Valid()
      modifies this
      ensures Valid()
      ensures Outcome(papers, totalReward, info, effects) == Research(task, c)
      ensures history == Record(old(history), info.allocation)
    {
      var state := c.state;
      var allocation := AllocateTask(c.episodeCount, task);

      var sel := SelectAgents(allocation, task, c);
      var strategy := sel.strategy;
      var got, searches := SearchWithFallback(strategy, sel.source, c.primary, c.backup);
      var source, cost, sourcesTried := got.source, got.cost, got.tried;
      papers := got.papers;

      var synthesis := c.synthesize(papers, task.queryTerms);
      if papers != [] {
        totalReward := c.getReward(papers, cost) + synthesis.quality * SynthesisWeight;
      } else {
        totalReward := FailurePenalty;
      }

      var nextState := state;
      var qUpdate: Option<QUpdate<S>> := None;
      var ucbUpdate: Option<UcbUpdate> := None;
      if allocation == QAgent || allocation == Both {
        qUpdate := Some(QUpdate(state, strategy, source, totalReward, nextState));
      }
      if allocation == UcbAgent || allocation == Both {
        ucbUpdate := Some(UcbUpdate(task.topic, source, totalReward));
      }

      info := Info(
        strategy, source, cost,
        if papers != [] then c.evaluate(papers) else 0.0,
        |papers|, synthesis.text, synthesis.quality, synthesis.newTerms,
        allocation, sourcesTried, |sourcesTried| > 1);
      effects := Effects(sel.queries, searches, qUpdate, ucbUpdate);
      ghost var expected := Research(task, c);
      assert papers == expected.papers && totalReward == expected.reward;
      assert info == expected.info;
      assert effects == expected.effects;
    }
  }
}
