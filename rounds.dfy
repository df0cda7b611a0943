/** Which image a round shows. The control round always shows the first
    control image; every other round indexes the list of study images with
    its number compacted past the control slot. The lists are the key lists
    of the study data file, given as parameters. */
module RoundSequencer {
  import opened Records

  /** `(rounds - 1) - (rounds // CONTROL_ROUND)`. Python's `//` rounds toward
      minus infinity; Dafny's `/` is Euclidean; for the positive divisor 15
      the two agree on every integer. */
  function ImageIndex(rounds: int): int {
    (rounds - 1) - rounds / CONTROL_ROUND
  }

  /** Python's `xs[i]`: a negative index counts from the end, and an index
      outside both ranges raises IndexError. */
  function PyIndex<T>(xs: seq<T>, i: int): Result<T> {
    if 0 <= i < |xs| then Ok(xs[i])
    else if -|xs| <= i < 0 then Ok(xs[|xs| + i])
    else Err(IndexError)
  }

  /** The hash `streetview` picks for round `rounds`. */
  function SelectImage(images: seq<string>, controls: seq<string>, rounds: int): (r: Result<string>)
    ensures rounds == CONTROL_ROUND ==> (r.Ok? <==> |controls| > 0)
    ensures rounds == CONTROL_ROUND && |controls| > 0 ==> r.value == controls[0]
    ensures rounds != CONTROL_ROUND && 1 <= rounds <= 29 ==>
              var i := if rounds < CONTROL_ROUND then rounds - 1 else rounds - 2;
              r == if i < |images| then Ok(images[i]) else Err(IndexError)
    ensures rounds == 0 && |images| > 0 ==> r == Ok(images[|images| - 1])
    ensures r.Ok? ==> r.value in controls || r.value in images
    ensures r.Err? ==> r.error == IndexError
  {
    if rounds == CONTROL_ROUND then PyIndex(controls, 0)
    else PyIndex(images, ImageIndex(rounds))
  }

  /** On the rounds before the second control slot (round 30) the index is
      the round number minus one before the control round and minus two
      after it. */
  lemma ImageIndexClosedForm(rounds: int)
    requires 1 <= rounds <= 29 && rounds != CONTROL_ROUND
    ensures ImageIndex(rounds) == if rounds < CONTROL_ROUND then rounds - 1 else rounds - 2
    ensures 0 <= ImageIndex(rounds) <= 27
  {
    if rounds < CONTROL_ROUND {
      assert rounds / CONTROL_ROUND == 0;
    } else {
      assert rounds / CONTROL_ROUND == 1;
    }
  }

  /** Distinct non-control rounds up to 29 show distinct images. The bound is
      tight: round 30 gets the index of round 29. */
  lemma ImageIndexInjective(r1: int, r2: int)
    requires 1 <= r1 <= 29 && r1 != CONTROL_ROUND
    requires 1 <= r2 <= 29 && r2 != CONTROL_ROUND
    requires r1 != r2
    ensures ImageIndex(r1) != ImageIndex(r2)
  {
    ImageIndexClosedForm(r1);
    ImageIndexClosedForm(r2);
  }
}
