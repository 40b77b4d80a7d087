/**
One round of `TreeAgent` in `agentfork/harness/agent.py` on its own: what the caller
gives, and which candidate has to win.
*/
module Rounds {
  import opened Common
  import opened RadixForest
  import opened BranchTrie
  import opened TreeCache
  import Utf8

  type Id = string

  /** A continuation as the caller gives it. */
  datatype Text = Chars(text: string) | Tokens(tokens: seq<Token>)

  /** One stage; `verdicts` is what work and evaluator give for each candidate, `None` if one raises. */
  datatype Round = Round(continuations: seq<Text>, verdicts: seq<Option<real>>, childIds: Option<seq<Id>>)

  predicate WellFormed(round: Round) {
    |round.verdicts| == |round.continuations| && (round.childIds.Some? ==> "" !in round.childIds.value)
  }

  /** `_unit` on the token path. */
  function Unit(value: Text): seq<Token> {
    match value
    case Chars(text) => Utf8.Encode(text)
    case Tokens(tokens) => tokens
  }

  /** Tokens are taken as they are; a text can be read back from what it is turned into. */
  lemma UnitFaithful(value: Text)
    ensures value.Tokens? ==> Unit(value) == value.tokens
    ensures value.Chars? ==> Utf8.Decode(Unit(value)) == value.text
  {
    if value.Chars? { Utf8.RoundTrip(value.text); }
  }

  /** `_strictly_extends`, by length and slice as the source computes it. */
  function StrictlyExtends(base: seq<Token>, candidate: seq<Token>): (r: bool)
    ensures r <==> base < candidate
  {
    if |candidate| <= |base| then false else candidate[..|base|] == base
  }

  /** For texts, checking the encodings is checking the texts. */
  lemma TextExtends(base: string, candidate: string)
    ensures StrictlyExtends(Unit(Chars(base)), Unit(Chars(candidate))) <==> base < candidate
  {
    Utf8.EncodeStrict(base, candidate);
  }

  /** Every continuation strictly extends `base`. */
  predicate AllExtend(base: seq<Token>, round: Round) {
    forall i | 0 <= i < |round.continuations| :: base < Unit(round.continuations[i])
  }

  /** Where a round begins: what is cached, the namespace, and the limits of the cache. */
  datatype Stage = Stage(cached: set<Pos>, ns: string, capacity: nat, budget: Option<nat>)

  ghost function Target(g: Stage, round: Round, i: nat): Pos
    requires i < |round.continuations|
  {
    Pos(g.ns, Unit(round.continuations[i]))
  }

  /** What is cached after the first `i` candidates were committed, each if there was room for it. */
  ghost function AfterCommits(g: Stage, round: Round, i: nat): set<Pos>
    requires i <= |round.continuations|
  {
    if i == 0 then g.cached
    else
      var before := AfterCommits(g, round, i - 1);
      if Admits(before, Target(g, round, i - 1), g.capacity, g.budget) then before + Prefixes(Target(g, round, i - 1)) else before
  }

  /** There is room for candidate `i` when its turn comes. */
  ghost predicate Commits(g: Stage, round: Round, i: nat)
    requires i < |round.continuations|
  {
    Admits(AfterCommits(g, round, i), Target(g, round, i), g.capacity, g.budget)
  }

  /** Candidate `i` is committed, worked on and scored without error. */
  ghost predicate Finishes(g: Stage, round: Round, i: nat)
    requires WellFormed(round) && i < |round.continuations|
  {
    Commits(g, round, i) && round.verdicts[i].Some?
  }

  /** The candidate to keep: the first of the best among those without error. */
  ghost predicate WinsRound(g: Stage, round: Round, w: nat)
    requires WellFormed(round)
  {
    && w < |round.continuations| && Finishes(g, round, w)
    && forall j: nat | j < |round.continuations| && Finishes(g, round, j) ::
         && round.verdicts[j].value <= round.verdicts[w].value
         && (j < w ==> round.verdicts[j].value < round.verdicts[w].value)
  }

  lemma WinnerUnique(g: Stage, round: Round, v: nat, w: nat)
    requires WellFormed(round) && WinsRound(g, round, v) && WinsRound(g, round, w)
    ensures v == w
  {
  }

  /** Some candidate finishes if and only if there is one to keep. */
  lemma {:induction false} SomeWinner(g: Stage, round: Round, n: nat) returns (w: nat)
    requires WellFormed(round) && n <= |round.continuations|
    ensures w < n ==> Finishes(g, round, w) && forall j: nat | j < n && Finishes(g, round, j) ::
                        round.verdicts[j].value <= round.verdicts[w].value && (j < w ==> round.verdicts[j].value < round.verdicts[w].value)
    ensures w >= n ==> forall j: nat | j < n :: !Finishes(g, round, j)
  {
    hide Commits;
    if n == 0 {
      w := 0;
    } else {
      w := SomeWinner(g, round, n - 1);
      if w >= n - 1 {
        w := if Finishes(g, round, n - 1) then n - 1 else n;
      } else if Finishes(g, round, n - 1) && round.verdicts[w].value < round.verdicts[n - 1].value {
        w := n - 1;
      }
    }
  }

  /** Where the next round begins: only the winner's sequence is cached. */
  ghost function NextStage(g: Stage, round: Round, w: nat): Stage
    requires w < |round.continuations|
  {
    g.(cached := Prefixes(Target(g, round, w)))
  }

  /** Every round has a candidate to keep, and its continuations extend the previous winner's. */
  ghost predicate Solvable(g: Stage, base: seq<Token>, rounds: seq<Round>)
    requires forall round | round in rounds :: WellFormed(round)
    decreases |rounds|
  {
    rounds == [] ||
    (&& AllExtend(base, rounds[0])
     && exists w: nat :: WinsRound(g, rounds[0], w)
          && Solvable(NextStage(g, rounds[0], w), Unit(rounds[0].continuations[w]), rounds[1..]))
  }
}
