/** The use-case carousel of the landing page (app/page.tsx): an index into
    five cards, moved by the arrow buttons, showing up to three cards from
    the index on. */
module Landing {
  import opened Js

  /** The titles of the five use-case cards, in order. */
  const UseCases: seq<string> :=
    ["Touchless Control", "Virtual Assistants", "EdTech Analysis", "Healthcare Support", "Accessibility UI"]

  /** The index the carousel starts at. */
  const Start := 0

  /** The carousel starts on a card, and shows the first three cards. */
  lemma StartShowsFirstCards()
    ensures 0 <= Start < |UseCases|
    ensures Window(Start) == UseCases[..3]
  {
  }

  /** `nextUseCase`: one card on, from the last back to the first. */
  function Next(i: int): (r: int)
    requires 0 <= i < |UseCases|
    ensures 0 <= r < |UseCases|
    ensures r == if i == |UseCases| - 1 then 0 else i + 1
  {
    Remainder(i + 1, |UseCases|)
  }

  /** `prevUseCase`: one card back, from the first to the last. */
  function Prev(i: int): (r: int)
    requires 0 <= i < |UseCases|
    ensures 0 <= r < |UseCases|
    ensures r == if i == 0 then |UseCases| - 1 else i - 1
  {
    Remainder(i - 1 + |UseCases|, |UseCases|)
  }

  lemma PrevUndoesNext(i: int)
    requires 0 <= i < |UseCases|
    ensures Prev(Next(i)) == i && Next(Prev(i)) == i
  {
  }

  /** `k` presses of the next button. */
  function Advance(i: int, k: nat): (r: int)
    requires 0 <= i < |UseCases|
    ensures 0 <= r < |UseCases|
    decreases k
  {
    if k == 0 then i else Advance(Next(i), k - 1)
  }

  /** `k` presses of the next button move the index `k` places round the ring. */
  lemma {:induction false} AdvanceMovesRound(i: int, k: nat)
    requires 0 <= i < |UseCases|
    ensures Advance(i, k) == (i + k) % |UseCases|
    decreases k
  {
    if k > 0 {
      AdvanceMovesRound(Next(i), k - 1);
    }
  }

  /** Five presses of the next button come back to the starting card. */
  lemma {:induction false} FivePressesReturn(i: int)
    requires 0 <= i < |UseCases|
    ensures Advance(i, |UseCases|) == i
  {
    AdvanceMovesRound(i, |UseCases|);
  }

  /** `useCases.slice(currentUseCase, currentUseCase + 3)`: the cards on
      show. Near the end there are fewer than three; the window does not
      wrap round. */
  function Window(i: int): (r: seq<string>)
    requires 0 <= i < |UseCases|
    ensures |r| == Min(3, |UseCases| - i)
    ensures forall k :: 0 <= k < |r| ==> r[k] == UseCases[i + k]
  {
    Slice(UseCases, i, i + 3)
  }
}
