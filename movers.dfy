/** The two machines that walk along a strand: the RNA polymerase over the DNA
    template (Transcription) and the ribosome over the mRNA (Translation).
    Each slides right to the codon the player is working on, waits there for
    it to be completed, and then moves the puzzle on (gui.go). */
module Movers {
  import opened Geometry
  import opened Puzzle

  /** x the polymerase or ribosome must reach before codon `k` counts as
      reached. */
  function CodonStop(k: int): int { 160 * (k + 1) }

  /** Per-frame speeds, scaled by the whole-number ratio of the screen size to
      the base size. */
  function StepX(screenWidth: int, n: int): int { n * GoDiv(screenWidth, BaseScreenWidth) }
  function StepY(screenHeight: int, n: int): int { n * GoDiv(screenHeight, BaseScreenHeight) }

  lemma StepsAtLeast(screenWidth: int, screenHeight: int)
    requires BaseScreenWidth <= screenWidth && 0 <= screenHeight
    ensures StepX(screenWidth, 5) >= 5 && StepX(screenWidth, 4) >= 0 && StepY(screenHeight, 2) >= 0
    ensures StepY(screenHeight, 3) >= 0
  {
    assert GoDiv(screenWidth, BaseScreenWidth) >= 1;
  }

  // ---------------------------------------------------------------------------
  // RNA polymerase

  /** The entry move: once the transcription factor has sunk to y >= 420, a
      polymerase still at x <= 80 slides in down and to the right. */
  function PolymeraseEntry(r: Rect, tfaY: int, screenWidth: int, screenHeight: int): Rect {
    if tfaY >= 420 && r.pos.x <= 80 then
      r.(pos := Vector(r.pos.x + StepX(screenWidth, 4), r.pos.y + StepY(screenHeight, 2)))
    else r
  }

  /** Whether RNAPolymerase.update reaches its last branch, the one that
      writes `DNA[currentFrag]`: `next` is raised and neither move applies. */
  predicate PolymeraseWritesDna(r: Rect, p: Progress, tfaY: int, screenWidth: int, screenHeight: int) {
    var r1 := PolymeraseEntry(r, tfaY, screenWidth, screenHeight);
    var k := p.currentFrag;
    && p.next
    && !(k == StrandLength && r1.pos.x < screenWidth + 50)
    && !(r1.pos.x < CodonStop(k))
  }

  /** RNAPolymerase.update. With `next` raised it slides right until it
      reaches the current codon's stop, then clears that codon's completion,
      asks for new choices (`reset`) and lowers `next`; after the last codon
      (currentFrag == 5) it leaves down-right until it is off screen. */
  function PolymeraseStep(r: Rect, p: Progress, tfaY: int, screenWidth: int, screenHeight: int)
    : (res: (Rect, Progress))
    ensures var (r2, q) := res;
      var r1 := PolymeraseEntry(r, tfaY, screenWidth, screenHeight);
      var k := p.currentFrag;
      && q.currentFrag == k && q.mrnaPtr == p.mrnaPtr && q.mrna == p.mrna && |q.dna| == |p.dna|
      && r2.width == r.width && r2.height == r.height
      && (!p.next ==> q == p && r2 == r1)
      && (p.next && k != StrandLength ==> (q.next <==> r1.pos.x < CodonStop(k)))
      && (p.next && k == StrandLength ==> (q.next <==> r1.pos.x < screenWidth + 50 || r1.pos.x < CodonStop(k)))
      && (q.next ==> q == p && r2.pos.x == r1.pos.x + StepX(screenWidth, 5))
      && (p.next && !q.next ==>
            && r2 == r1 && q.reset
            && q == p.(reset := true, next := false, dna := q.dna)
            && (0 <= k < |p.dna| ==> q.dna == p.dna[k := p.dna[k].(isComplete := false)])
            && (!(0 <= k < |p.dna|) ==> q.dna == p.dna))
      && (p.next && !q.next <==> PolymeraseWritesDna(r, p, tfaY, screenWidth, screenHeight))
      && (ProgressValid(p) ==> ProgressValid(q))
  {
    var r1 := PolymeraseEntry(r, tfaY, screenWidth, screenHeight);
    var k := p.currentFrag;
    if !p.next then (r1, p)
    else if k == StrandLength && r1.pos.x < screenWidth + 50 then
      (r1.(pos := Vector(r1.pos.x + StepX(screenWidth, 5), r1.pos.y + StepY(screenHeight, 3))), p)
    else if r1.pos.x < CodonStop(k) then
      (r1.(pos := r1.pos.(x := r1.pos.x + StepX(screenWidth, 5))), p)
    else
      var dna := if 0 <= k < |p.dna| then p.dna[k := p.dna[k].(isComplete := false)] else p.dna;
      (r1, p.(dna := dna, reset := true, next := false))
  }

  /** RNAPolymerase.update as written: the last branch writes
      `DNA[currentFrag]` unguarded, so Go demands the index be in range
      whenever that branch is reached. Wherever Go does not panic it agrees
      with PolymeraseStep. */
  function PolymeraseStepAsWritten(r: Rect, p: Progress, tfaY: int, screenWidth: int, screenHeight: int)
    : (res: (Rect, Progress))
    requires PolymeraseWritesDna(r, p, tfaY, screenWidth, screenHeight) ==> 0 <= p.currentFrag < |p.dna|
    ensures res == PolymeraseStep(r, p, tfaY, screenWidth, screenHeight)
  {
    var r1 := PolymeraseEntry(r, tfaY, screenWidth, screenHeight);
    var k := p.currentFrag;
    if !p.next then (r1, p)
    else if k == StrandLength && r1.pos.x < screenWidth + 50 then
      (r1.(pos := Vector(r1.pos.x + StepX(screenWidth, 5), r1.pos.y + StepY(screenHeight, 3))), p)
    else if r1.pos.x < CodonStop(k) then
      (r1.(pos := r1.pos.(x := r1.pos.x + StepX(screenWidth, 5))), p)
    else
      (r1, p.(dna := p.dna[k := p.dna[k].(isComplete := false)], reset := true, next := false))
  }

  /** The polymerase only ever moves right and down. */
  lemma PolymeraseMovesForward(r: Rect, p: Progress, tfaY: int, screenWidth: int, screenHeight: int)
    requires BaseScreenWidth <= screenWidth && 0 <= screenHeight
    ensures var r2 := PolymeraseStep(r, p, tfaY, screenWidth, screenHeight).0;
      r.pos.x <= r2.pos.x && r.pos.y <= r2.pos.y
  {
    StepsAtLeast(screenWidth, screenHeight);
  }

  function PolymeraseFrames(r: Rect, p: Progress, tfaY: int, screenWidth: int, screenHeight: int, n: nat)
    : (Rect, Progress)
    decreases n
  {
    if n == 0 then (r, p)
    else
      var (r2, q) := PolymeraseStep(r, p, tfaY, screenWidth, screenHeight);
      PolymeraseFrames(r2, q, tfaY, screenWidth, screenHeight, n - 1)
  }

  /** A polymerase that is not moving on leaves the puzzle state alone. */
  lemma {:induction false} PolymeraseIdle(r: Rect, p: Progress, tfaY: int, screenWidth: int, screenHeight: int, n: nat)
    requires !p.next
    ensures PolymeraseFrames(r, p, tfaY, screenWidth, screenHeight, n).1 == p
    decreases n
  {
    if n > 0 {
      var r2 := PolymeraseStep(r, p, tfaY, screenWidth, screenHeight).0;
      PolymeraseIdle(r2, p, tfaY, screenWidth, screenHeight, n - 1);
    }
  }

  /** Once nextDNACodon has set it moving, the polymerase arrives: if it is
      within 5n pixels of the codon's stop, then within n + 1 frames it has
      lowered `next`, asked for new choices and cleared the codon's
      completion, on the same codon. */
  lemma {:induction false} PolymeraseArrives(r: Rect, p: Progress, tfaY: int, screenWidth: int, screenHeight: int, n: nat)
    requires p.next && 0 <= p.currentFrag < StrandLength && |p.dna| == StrandLength
    requires BaseScreenWidth <= screenWidth && 0 <= screenHeight
    requires CodonStop(p.currentFrag) <= r.pos.x + 5 * n
    ensures var q := PolymeraseFrames(r, p, tfaY, screenWidth, screenHeight, n + 1).1;
      && !q.next && q.reset && q.currentFrag == p.currentFrag
      && |q.dna| == StrandLength && !q.dna[p.currentFrag].isComplete
      && (forall i | 0 <= i < StrandLength && i != p.currentFrag :: q.dna[i] == p.dna[i])
    decreases n
  {
    var (r2, q1) := PolymeraseStep(r, p, tfaY, screenWidth, screenHeight);
    StepsAtLeast(screenWidth, screenHeight);
    if !q1.next {
      PolymeraseIdle(r2, q1, tfaY, screenWidth, screenHeight, n);
    } else {
      assert n > 0;
      PolymeraseArrives(r2, q1, tfaY, screenWidth, screenHeight, n - 1);
    }
  }

  /** After the last codon the polymerase, still moving on, runs off the
      screen and then reaches the branch that writes `DNA[currentFrag]` with
      `currentFrag` equal to the strand's length: within n + 1 frames of
      being 5n pixels short of the edge, `next` has been lowered by that
      branch while every codon was done. */
  lemma {:induction false} PolymeraseOverrunsStrand(r: Rect, p: Progress, tfaY: int, screenWidth: int,
                                                    screenHeight: int, n: nat)
    requires p.next && p.currentFrag == StrandLength && |p.dna| == StrandLength
    requires BaseScreenWidth <= screenWidth && 0 <= screenHeight
    requires screenWidth + 50 <= r.pos.x + 5 * n
    ensures var q := PolymeraseFrames(r, p, tfaY, screenWidth, screenHeight, n + 1).1;
      !q.next && q.currentFrag == |q.dna|
    decreases n
  {
    var (r2, q1) := PolymeraseStep(r, p, tfaY, screenWidth, screenHeight);
    StepsAtLeast(screenWidth, screenHeight);
    if !q1.next {
      assert PolymeraseWritesDna(r, p, tfaY, screenWidth, screenHeight);
      PolymeraseIdle(r2, q1, tfaY, screenWidth, screenHeight, n);
    } else {
      assert n > 0;
      PolymeraseOverrunsStrand(r2, q1, tfaY, screenWidth, screenHeight, n - 1);
    }
  }

  /** The corrected step: once every codon is done the polymerase never
      touches the strand or the counter, however long it runs. */
  lemma {:induction false} PolymeraseLeavesStrandAlone(r: Rect, p: Progress, tfaY: int, screenWidth: int,
                                                       screenHeight: int, n: nat)
    requires p.currentFrag == StrandLength && |p.dna| == StrandLength
    ensures var q := PolymeraseFrames(r, p, tfaY, screenWidth, screenHeight, n).1;
      q.dna == p.dna && q.currentFrag == StrandLength
    decreases n
  {
    if n > 0 {
      var (r2, q1) := PolymeraseStep(r, p, tfaY, screenWidth, screenHeight);
      PolymeraseLeavesStrandAlone(r2, q1, tfaY, screenWidth, screenHeight, n - 1);
    }
  }

  class RNAPolymerase {
    var rect: Rect

    constructor (rect: Rect)
      ensures this.rect == rect
    {
      this.rect := rect;
    }

    /** RNAPolymerase.update; its `next` flag is `game.polymeraseNext`, and
        `tfaY` is the transcription factor's height. */
    method Update(game: GameState, tfaY: int, screenWidth: int, screenHeight: int)
      requires game.Valid()
      modifies this, game, game.dna
      ensures game.Valid()
      ensures (rect, game.Snapshot()) == PolymeraseStep(old(rect), old(game.Snapshot()), tfaY, screenWidth, screenHeight)
      ensures game.seedSignal == old(game.seedSignal) && game.template == old(game.template)
    {
      if tfaY >= 420 {
        if rect.pos.x <= 80 {
          rect := rect.(pos := rect.pos.(y := rect.pos.y + 2 * GoDiv(screenHeight, 750)));
          rect := rect.(pos := rect.pos.(x := rect.pos.x + 4 * GoDiv(screenWidth, 1250)));
        }
      }
      if game.polymeraseNext {
        if game.currentFrag == 5 && rect.pos.x < screenWidth + 50 {
          rect := rect.(pos := rect.pos.(x := rect.pos.x + 5 * GoDiv(screenWidth, 1250)));
          rect := rect.(pos := rect.pos.(y := rect.pos.y + 3 * GoDiv(screenHeight, 750)));
        } else if rect.pos.x < 160 * (game.currentFrag + 1) {
          rect := rect.(pos := rect.pos.(x := rect.pos.x + 5 * GoDiv(screenWidth, 1250)));
        } else {
          if 0 <= game.currentFrag < game.dna.Length {
            game.dna[game.currentFrag] := game.dna[game.currentFrag].(isComplete := false);
          }
          game.reset := true;
          game.polymeraseNext := false;
        }
      }
    }
  }

  // ---------------------------------------------------------------------------
  // Ribosome

  /** The entry move: a ribosome still at x <= 40 slides in down and right. */
  function RibosomeEntry(r: Rect, screenWidth: int, screenHeight: int): Rect {
    if r.pos.x <= 40 then
      r.(pos := Vector(r.pos.x + StepX(screenWidth, 4), r.pos.y + StepY(screenHeight, 2)))
    else r
  }

  /** Ribosome.update. While the current mRNA codon is complete the ribosome
      slides right to the codon's stop and then calls nextMRNACodon; after
      the last codon it leaves down-right, and once off screen nextMRNACodon
      sends the player to the menu (the returned flag). */
  function RibosomeStep(r: Rect, p: Progress, screenWidth: int, screenHeight: int): (res: (Rect, Progress, bool))
    requires ProgressValid(p)
    ensures var (r2, q, toMenu) := res;
      var r1 := RibosomeEntry(r, screenWidth, screenHeight);
      var k := p.mrnaPtr;
      && ProgressValid(q)
      && q.currentFrag == p.currentFrag && q.dna == p.dna && q.next == p.next
      && r2.width == r.width && r2.height == r.height
      && (!p.mrna[k].isComplete ==> q == p && r2 == r1 && !toMenu)
      && (q.mrnaPtr != k ==>
            && p.mrna[k].isComplete && CodonStop(k) <= r1.pos.x
            && q.mrnaPtr == k + 1 && q.reset && !q.mrna[q.mrnaPtr].isComplete)
      && (toMenu <==>
            p.mrna[k].isComplete && k == LastCodon && screenWidth + 50 <= r1.pos.x && CodonStop(k) <= r1.pos.x)
      && (p.mrna[k].isComplete && k < LastCodon && CodonStop(k) <= r1.pos.x ==> q.mrnaPtr == k + 1)
      && (q.mrnaPtr != k ==> q.mrna[q.mrnaPtr] == p.mrna[q.mrnaPtr].(isComplete := false))
      && (forall i | 0 <= i < StrandLength && i != q.mrnaPtr :: q.mrna[i] == p.mrna[i])
      && (toMenu ==> q == p.(reset := false))
      && (q.mrnaPtr == k && !toMenu ==> q == p)
      && (q == p && p.mrna[k].isComplete && k < LastCodon ==> r2.pos.x == r1.pos.x + StepX(screenWidth, 5))
  {
    var r1 := RibosomeEntry(r, screenWidth, screenHeight);
    var k := p.mrnaPtr;
    if !p.mrna[k].isComplete then (r1, p, false)
    else if k == LastCodon && r1.pos.x < screenWidth + 50 then
      (r1.(pos := Vector(r1.pos.x + StepX(screenWidth, 5), r1.pos.y + StepY(screenHeight, 3))), p, false)
    else if r1.pos.x < CodonStop(k) then
      (r1.(pos := r1.pos.(x := r1.pos.x + StepX(screenWidth, 5))), p, false)
    else
      var (q, toMenu) := NextMrna(p);
      (r1, q, toMenu)
  }

  /** The ribosome only ever moves right and down. */
  lemma RibosomeMovesForward(r: Rect, p: Progress, screenWidth: int, screenHeight: int)
    requires ProgressValid(p) && BaseScreenWidth <= screenWidth && 0 <= screenHeight
    ensures var r2 := RibosomeStep(r, p, screenWidth, screenHeight).0;
      r.pos.x <= r2.pos.x && r.pos.y <= r2.pos.y
  {
    StepsAtLeast(screenWidth, screenHeight);
  }

  /** n frames of Ribosome.update. */
  function RibosomeFrames(r: Rect, p: Progress, screenWidth: int, screenHeight: int, n: nat)
    : (res: (Rect, Progress))
    requires ProgressValid(p)
    ensures ProgressValid(res.1)
    decreases n
  {
    if n == 0 then (r, p)
    else
      var (r2, q, _) := RibosomeStep(r, p, screenWidth, screenHeight);
      RibosomeFrames(r2, q, screenWidth, screenHeight, n - 1)
  }

  /** A ribosome whose current codon is not complete leaves the puzzle state
      alone, however many frames pass. */
  lemma {:induction false} RibosomeIdle(r: Rect, p: Progress, screenWidth: int, screenHeight: int, n: nat)
    requires ProgressValid(p) && !p.mrna[p.mrnaPtr].isComplete
    ensures RibosomeFrames(r, p, screenWidth, screenHeight, n).1 == p
    decreases n
  {
    if n > 0 {
      var r2 := RibosomeStep(r, p, screenWidth, screenHeight).0;
      RibosomeIdle(r2, p, screenWidth, screenHeight, n - 1);
    }
  }

  /** Once the current codon (not the last) is complete, the ribosome
      arrives: if it is within 5n pixels of the codon's stop, then within
      n + 1 frames the pointer has moved to the next codon, which is not yet
      complete, new choices are requested, and no other codon has changed. */
  lemma {:induction false} RibosomeArrives(r: Rect, p: Progress, screenWidth: int, screenHeight: int, n: nat)
    requires ProgressValid(p) && p.mrna[p.mrnaPtr].isComplete && p.mrnaPtr < LastCodon
    requires BaseScreenWidth <= screenWidth && 0 <= screenHeight
    requires CodonStop(p.mrnaPtr) <= r.pos.x + 5 * n
    ensures var q := RibosomeFrames(r, p, screenWidth, screenHeight, n + 1).1;
      && q.mrnaPtr == p.mrnaPtr + 1 && q.reset && !q.mrna[q.mrnaPtr].isComplete
      && q.currentFrag == p.currentFrag && q.dna == p.dna
      && (forall i | 0 <= i < StrandLength && i != q.mrnaPtr :: q.mrna[i] == p.mrna[i])
    decreases n
  {
    var (r2, q1, _) := RibosomeStep(r, p, screenWidth, screenHeight);
    StepsAtLeast(screenWidth, screenHeight);
    if q1.mrnaPtr != p.mrnaPtr {
      RibosomeIdle(r2, q1, screenWidth, screenHeight, n);
    } else {
      assert q1 == p;
      assert n > 0;
      RibosomeArrives(r2, q1, screenWidth, screenHeight, n - 1);
    }
  }

  class Ribosome {
    var rect: Rect

    constructor (rect: Rect)
      ensures this.rect == rect
    {
      this.rect := rect;
    }

    /** Ribosome.update; `toMenu` stands for the ToMenu call inside
        nextMRNACodon. */
    method Update(game: GameState, screenWidth: int, screenHeight: int) returns (toMenu: bool)
      requires game.Valid()
      modifies this, game, game.mrna
      ensures game.Valid()
      ensures (rect, game.Snapshot(), toMenu) == RibosomeStep(old(rect), old(game.Snapshot()), screenWidth, screenHeight)
      ensures game.seedSignal == old(game.seedSignal) && game.template == old(game.template)
    {
      toMenu := false;
      if rect.pos.x <= 40 {
        rect := rect.(pos := rect.pos.(y := rect.pos.y + 2 * GoDiv(screenHeight, 750)));
        rect := rect.(pos := rect.pos.(x := rect.pos.x + 4 * GoDiv(screenWidth, 1250)));
      }
      if game.mrna[game.mrnaPtr].isComplete {
        if game.mrnaPtr == 4 && rect.pos.x < screenWidth + 50 {
          rect := rect.(pos := rect.pos.(x := rect.pos.x + 5 * GoDiv(screenWidth, 1250)));
          rect := rect.(pos := rect.pos.(y := rect.pos.y + 3 * GoDiv(screenHeight, 750)));
        } else if rect.pos.x < 160 * (game.mrnaPtr + 1) {
          rect := rect.(pos := rect.pos.(x := rect.pos.x + 5 * GoDiv(screenWidth, 1250)));
        } else {
          toMenu := game.NextMrnaCodon();
        }
      }
    }
  }
}
