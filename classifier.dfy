/**
 * The part of `runPrediction` (script.js) that is not the neural network:
 * choosing the winning class from the probability vector. Inference itself
 * is an oracle outside the model.
 */
module Classifier {

  /** `index` is the first position holding the maximum of `probs`. */
  predicate IsFirstMax(probs: seq<real>, index: nat)
  {
    && index < |probs|
    && (forall j :: 0 <= j < index ==> probs[j] < probs[index])
    && (forall j :: index < j < |probs| ==> probs[j] <= probs[index])
  }

  /** The argmax loop: a later probability wins only when strictly greater. */
  method ArgMax(probs: seq<real>) returns (index: nat, max: real)
    requires |probs| > 0
    ensures index < |probs| && max == probs[index]
    ensures forall j :: 0 <= j < index ==> probs[j] < max
    ensures forall j :: index < j < |probs| ==> probs[j] <= max
  {
    max := probs[0];
    index := 0;
    for i := 1 to |probs|
      invariant index < i && max == probs[index]
      invariant forall j :: 0 <= j < index ==> probs[j] < max
      invariant forall j :: index < j < i ==> probs[j] <= max
    {
      if probs[i] > max {
        max := probs[i];
        index := i;
      }
    }
  }

  /** The first maximum is unique, so ArgMax's result is determined by its input. */
  lemma FirstMaxUnique(probs: seq<real>, i: nat, k: nat)
    requires IsFirstMax(probs, i) && IsFirstMax(probs, k)
    ensures i == k
  {
    assert probs[i] <= probs[k] && probs[k] <= probs[i];
  }
}
