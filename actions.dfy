/**
 * The command vocabulary of the voice agent: an `Actions` record pairs the
 * sentence the ranker compares against with the verb the agent
 * dispatches on and the noun naming the target object.
 */
module Actions {
  import opened Strings

  datatype Action = Action(sentence: string, verb: string, noun: string)

  /** The projection `actionsList[i].sentence`, index for index. */
  function Sentences(acts: seq<Action>): (r: seq<string>)
    ensures |r| == |acts|
    ensures forall i :: 0 <= i < |acts| ==> r[i] == acts[i].sentence
  {
    if acts == [] then [] else [acts[0].sentence] + Sentences(acts[1..])
  }

  /** Projecting a concatenation projects each part. */
  lemma SentencesAppend(a: seq<Action>, b: seq<Action>)
    ensures Sentences(a + b) == Sentences(a) + Sentences(b)
  {
    assert forall i :: 0 <= i < |a + b| ==> Sentences(a + b)[i] == (Sentences(a) + Sentences(b))[i];
  }

  /** Names are compared after `ToLower()` and `Replace(".", "")`. */
  function NormalizedName(n: string): (r: string)
    ensures '.' !in r
    ensures forall i :: 0 <= i < |r| ==> !IsUpper(r[i])
    ensures |r| <= |n|
  {
    Remove(ToLower(n), '.')
  }

  /** A name that is already lower case and dot-free is its own normal form. */
  lemma {:induction false} NormalizedNameFixed(n: string)
    requires '.' !in n
    requires forall i :: 0 <= i < |n| ==> !IsUpper(n[i])
    ensures NormalizedName(n) == n
  {
    assert ToLower(n) == n;
    RemoveAbsent(n, '.');
  }

  /** Normalising twice is normalising once. */
  lemma NormalizedNameIdempotent(n: string)
    ensures NormalizedName(NormalizedName(n)) == NormalizedName(n)
  {
    NormalizedNameFixed(NormalizedName(n));
  }

  /** The four ways out of an interaction appended by `Awake`. */
  function BackActions(): (r: seq<Action>)
    ensures |r| == 4
    ensures forall i :: 0 <= i < 4 ==> r[i].verb == "back" && r[i].noun == ""
  {
    [Action("stop", "back", ""), Action("exit", "back", ""),
     Action("back", "back", ""), Action("let us go", "back", "")]
  }

  /** The verbs that end an active interaction in `Utility`. */
  predicate IsDisengageVerb(v: string) { v == "back" || v == "stop" || v == "exit" || v == "let's go" }

  /** The single action offered once the game is over. */
  const RestartAction := Action("restart", "restart", "restart")
}
