/** One frame of main.go's Game.Update in the two puzzle levels. In
    Transcription the transcription factor, the polymerase and the info page
    move, a pending reset regenerates the codon choices from the current DNA
    codon, the right choice tile is updated against the polymerase, and a
    completed codon calls nextDNACodon. In Translation the same happens with
    the tRNA tile and the ribosome over the mRNA. */
module Session {
  import opened Geometry
  import opened Entities
  import opened Puzzle
  import opened Tiles
  import opened Movers

  // ---------------------------------------------------------------------------
  // Transcription

  /** What a Transcription frame reads and writes: the puzzle globals, the
      polymerase, temp_tfa, the info page, the right choice tile and the
      codons of the two wrong tiles. */
  datatype Nucleus = Nucleus(
    progress: Progress,
    polymerase: Rect,
    tfa: TfaState,
    info: InfoState,
    right: ChoiceState,
    wrong1: string,
    wrong2: string)

  /** The level's invariant: the counters in range, a three-base right tile
      whose codon (and every regenerated one) is long enough for its bases,
      and no codon at or after the current one completed yet. */
  predicate NucleusValid(n: Nucleus, h: Helpers) {
    && ProgressValid(n.progress)
    && |n.right.bases| == 3 && |n.right.codon| >= 3
    && (forall i | 0 <= i < StrandLength :: |h.transcribe(n.progress.dna[i].codon)| >= 3)
    && (forall i | n.progress.currentFrag <= i < StrandLength :: !n.progress.dna[i].isComplete)
  }

  /** main.go:253-258 without the menu button and the info text: temp_tfa
      (a tfa2) activates and moves, the polymerase moves, the info page
      toggles. */
  function NucleusMovers(n: Nucleus, input: Input, screenWidth: int, screenHeight: int, h: Helpers): Nucleus {
    var tfa := TfaStep(TfaActivate(n.tfa, Tfa2, screenHeight), Tfa2, n.polymerase.pos, screenWidth, screenHeight);
    var (poly, p) := PolymeraseStep(n.polymerase, n.progress, tfa.rect.pos.y, screenWidth, screenHeight);
    n.(progress := p, polymerase := poly, tfa := tfa, info := InfoStep(n.info, input, screenWidth, screenHeight, h))
  }

  /** main.go:262-267: a pending reset gives the right tile the transcription
      of the current codon and the wrong tiles the random codons `fresh1`
      and `fresh2`, and is then cleared. */
  function Regenerate(n: Nucleus, fresh1: string, fresh2: string, h: Helpers): (r: Nucleus)
    requires ProgressValid(n.progress) && n.progress.currentFrag < StrandLength
    ensures r.progress == n.progress.(reset := false)
    ensures r.polymerase == n.polymerase && r.tfa == n.tfa && r.info == n.info
    ensures r.right == n.right.(codon := r.right.codon)
    ensures n.progress.reset ==>
              && r.right.codon == h.transcribe(n.progress.dna[n.progress.currentFrag].codon)
              && r.wrong1 == fresh1 && r.wrong2 == fresh2
    ensures !n.progress.reset ==> r == n
  {
    if n.progress.reset then
      var curr := n.progress.dna[n.progress.currentFrag];
      n.(right := n.right.(codon := h.transcribe(curr.codon)), wrong1 := fresh1, wrong2 := fresh2,
         progress := n.progress.(reset := false))
    else n
  }

  /** main.go:270-276: the right tile is updated against the polymerase when
      `updateTile`, and a completed current codon calls nextDNACodon. */
  function Play(n: Nucleus, input: Input, h: Helpers, updateTile: bool): Nucleus
    requires ProgressValid(n.progress) && n.progress.currentFrag < StrandLength
    requires |n.right.codon| >= |n.right.bases|
  {
    var k := n.progress.currentFrag;
    var (right, frag) :=
      if updateTile then ChoiceStep(n.right, n.progress.dna[k], input, n.polymerase, false, h)
      else (n.right, n.progress.dna[k]);
    var p := n.progress.(dna := n.progress.dna[k := frag]);
    n.(right := right, progress := if frag.isComplete then NextDna(p) else p)
  }

  /** A Transcription frame as main.go:252-276 write it: the tile is updated
      only on a frame whose button was just pressed, and `dna[currentFrag]` is
      read whatever `currentFrag` is, so the frame needs it below 5. */
  function TranscriptionFrameAsWritten(n: Nucleus, input: Input, screenWidth: int, screenHeight: int,
                                       fresh1: string, fresh2: string, h: Helpers): (r: Nucleus)
    requires NucleusValid(n, h) && n.progress.currentFrag < |n.progress.dna|
    ensures r.progress.currentFrag >= n.progress.currentFrag
    ensures r.progress.mrna == n.progress.mrna && r.progress.mrnaPtr == n.progress.mrnaPtr
  {
    var m := NucleusMovers(n, input, screenWidth, screenHeight, h);
    Play(Regenerate(m, fresh1, fresh2, h), input, h, input.justPressed)
  }

  /** The Transcription frame as intended: the tile is updated on every frame,
      so it can be dragged and dropped, and once every codon is done
      (currentFrag == 5) there is no current codon to work on. */
  function TranscriptionFrame(n: Nucleus, input: Input, screenWidth: int, screenHeight: int,
                              fresh1: string, fresh2: string, h: Helpers): (r: Nucleus)
    requires NucleusValid(n, h)
    ensures r.progress.currentFrag >= n.progress.currentFrag
    ensures r.progress.mrna == n.progress.mrna && r.progress.mrnaPtr == n.progress.mrnaPtr
  {
    var m := NucleusMovers(n, input, screenWidth, screenHeight, h);
    if m.progress.currentFrag == StrandLength then m
    else Play(Regenerate(m, fresh1, fresh2, h), input, h, true)
  }

  /** The drop that completes the current codon: with a codon left, a release
      inside the right tile while it overlaps the polymerase (after the
      polymerase's move this frame), showing the right codon or about to be
      given it by a pending reset. */
  predicate RightDrop(n: Nucleus, input: Input, screenWidth: int, screenHeight: int, h: Helpers)
    requires NucleusValid(n, h)
  {
    var m := NucleusMovers(n, input, screenWidth, screenHeight, h);
    var k := m.progress.currentFrag;
    && k < StrandLength
    && h.pointIn(n.right.rect, input.cursor) && !input.justPressed && input.justReleased
    && h.overlap(n.right.rect, m.polymerase)
    && (m.progress.reset || n.right.codon == h.transcribe(m.progress.dna[k].codon))
  }

  /** The intended frame keeps the level's invariant, whatever the input,
      including the frames after the last codon. */
  lemma TranscriptionFrameKeepsValid(n: Nucleus, input: Input, screenWidth: int, screenHeight: int,
                                     fresh1: string, fresh2: string, h: Helpers)
    requires NucleusValid(n, h)
    ensures NucleusValid(TranscriptionFrame(n, input, screenWidth, screenHeight, fresh1, fresh2, h), h)
  {
    var m := NucleusMovers(n, input, screenWidth, screenHeight, h);
    assert NucleusValid(m, h);
    if m.progress.currentFrag < StrandLength {
      var g := Regenerate(m, fresh1, fresh2, h);
      assert NucleusValid(g, h);
    }
  }

  /** A reset requested before or during the frame (the polymerase raises it
      on reaching a codon) is served and spent within the frame: the right
      tile shows the transcription of the current codon and the wrong tiles
      the fresh codons; without a request the tiles keep their codons. */
  lemma TranscriptionFrameRegenerates(n: Nucleus, input: Input, screenWidth: int, screenHeight: int,
                                      fresh1: string, fresh2: string, h: Helpers)
    requires NucleusValid(n, h)
    ensures var m := NucleusMovers(n, input, screenWidth, screenHeight, h);
      var r := TranscriptionFrame(n, input, screenWidth, screenHeight, fresh1, fresh2, h);
      m.progress.currentFrag < StrandLength ==>
        && !r.progress.reset
        && (m.progress.reset ==>
              && r.right.codon == h.transcribe(m.progress.dna[m.progress.currentFrag].codon)
              && r.wrong1 == fresh1 && r.wrong2 == fresh2)
        && (!m.progress.reset ==>
              r.right.codon == n.right.codon && r.wrong1 == n.wrong1 && r.wrong2 == n.wrong2)
  {
    var m := NucleusMovers(n, input, screenWidth, screenHeight, h);
    assert m.right == n.right && m.wrong1 == n.wrong1 && m.wrong2 == n.wrong2;
  }

  /** The intended frame moves to the next codon exactly when the player drops
      the right codon on the polymerase, and then by exactly one, with the
      polymerase set moving and the dropped codon marked complete. */
  lemma TranscriptionFrameAdvancesOnDrop(n: Nucleus, input: Input, screenWidth: int, screenHeight: int,
                                         fresh1: string, fresh2: string, h: Helpers)
    requires NucleusValid(n, h)
    ensures var r := TranscriptionFrame(n, input, screenWidth, screenHeight, fresh1, fresh2, h);
      && (r.progress.currentFrag != n.progress.currentFrag <==> RightDrop(n, input, screenWidth, screenHeight, h))
      && (RightDrop(n, input, screenWidth, screenHeight, h) ==>
            && r.progress.currentFrag == n.progress.currentFrag + 1 && r.progress.next
            && r.progress.dna[n.progress.currentFrag].isComplete)
  {
    var m := NucleusMovers(n, input, screenWidth, screenHeight, h);
    assert m.right == n.right;
  }

  /** With the tile updated only on just-pressed frames, no well-formed input
      ever completes a codon: the press and the release of a click never
      fall on the same frame, so `currentFrag` never moves. */
  lemma AsWrittenNeverAdvances(n: Nucleus, input: Input, screenWidth: int, screenHeight: int,
                               fresh1: string, fresh2: string, h: Helpers)
    requires NucleusValid(n, h) && n.progress.currentFrag < |n.progress.dna|
    requires WellFormed(input)
    ensures TranscriptionFrameAsWritten(n, input, screenWidth, screenHeight, fresh1, fresh2, h).progress.currentFrag
            == n.progress.currentFrag
  {
    var m := NucleusMovers(n, input, screenWidth, screenHeight, h);
    assert !m.progress.dna[m.progress.currentFrag].isComplete;
  }

  /** The as-written frame's precondition is not kept: completing the fifth
      codon (nextDNACodon at currentFrag 4) leaves currentFrag equal to the
      strand's length, so the next frame's `dna[currentFrag]` is out of
      range. */
  lemma NextDnaOverrunsStrand(p: Progress)
    requires ProgressValid(p) && p.currentFrag == LastCodon
    ensures NextDna(p).currentFrag == |NextDna(p).dna|
  {
  }

  /** After the last codon the intended frame works on no codon: the strand
      and the right tile are left as the polymerase leaves them. */
  lemma DoneFrameTouchesNoCodon(n: Nucleus, input: Input, screenWidth: int, screenHeight: int,
                                fresh1: string, fresh2: string, h: Helpers)
    requires NucleusValid(n, h) && n.progress.currentFrag == StrandLength
    ensures var r := TranscriptionFrame(n, input, screenWidth, screenHeight, fresh1, fresh2, h);
      r.progress.currentFrag == StrandLength && r.right == n.right
      && r.wrong1 == n.wrong1 && r.wrong2 == n.wrong2
      && (forall i | 0 <= i < StrandLength :: r.progress.dna[i] == n.progress.dna[i])
  {
  }

  // ---------------------------------------------------------------------------
  // Translation

  /** What a Translation frame reads and writes. */
  datatype Cytosol = Cytosol(
    progress: Progress,
    ribosome: Rect,
    info: InfoState,
    right: ChoiceState,
    wrong1: string,
    wrong2: string)

  predicate CytosolValid(c: Cytosol, h: Helpers) {
    && ProgressValid(c.progress)
    && |c.right.bases| == 3 && |c.right.codon| >= 3
    && (forall i | 0 <= i < StrandLength :: |h.transcribe(c.progress.mrna[i].codon)| >= 3)
  }

  /** A Translation frame (main.go:278-299) as intended: the info page
      toggles; a pending reset gives the right tRNA the transcription of the
      current mRNA codon and the wrong ones `fresh1`, `fresh2`; the right tRNA
      is updated against the ribosome; then the ribosome moves, calling
      nextMRNACodon when it has reached a completed codon. The flag is the
      request to go back to the menu. */
  function TranslationFrame(c: Cytosol, input: Input, screenWidth: int, screenHeight: int,
                            fresh1: string, fresh2: string, h: Helpers): (r: (Cytosol, bool))
    requires CytosolValid(c, h)
    ensures CytosolValid(r.0, h)
    ensures r.0.progress.currentFrag == c.progress.currentFrag && r.0.progress.dna == c.progress.dna
    ensures r.0.progress.mrnaPtr == c.progress.mrnaPtr || r.0.progress.mrnaPtr == c.progress.mrnaPtr + 1
    ensures r.1 ==> c.progress.mrnaPtr == LastCodon && r.0.progress.mrnaPtr == LastCodon
  {
    var info := InfoStep(c.info, input, screenWidth, screenHeight, h);
    var k := c.progress.mrnaPtr;
    var curr := c.progress.mrna[k];
    var (right0, w1, w2, p0) :=
      if c.progress.reset then (c.right.(codon := h.transcribe(curr.codon)), fresh1, fresh2, c.progress.(reset := false))
      else (c.right, c.wrong1, c.wrong2, c.progress);
    var (right, frag) := ChoiceStep(right0, curr, input, c.ribosome, true, h);
    var p1 := p0.(mrna := p0.mrna[k := frag]);
    var (ribo, q, toMenu) := RibosomeStep(c.ribosome, p1, screenWidth, screenHeight);
    (Cytosol(q, ribo, info, right, w1, w2), toMenu)
  }

  /** The drop that completes the current mRNA codon: a release inside the
      right tRNA while it overlaps the ribosome, showing the transcription of
      the current codon or about to be given it by a pending reset. */
  predicate TrnaDrop(c: Cytosol, input: Input, h: Helpers)
    requires CytosolValid(c, h)
  {
    var k := c.progress.mrnaPtr;
    && !input.justPressed && input.justReleased
    && h.pointIn(c.right.rect, input.cursor) && h.overlap(c.right.rect, c.ribosome)
    && (c.progress.reset || c.right.codon == h.transcribe(c.progress.mrna[k].codon))
  }

  /** The current mRNA codon ends the frame complete, or the pointer has moved
      past it, exactly when it was already complete or the player dropped the
      right tRNA on the ribosome this frame. */
  lemma TranslationProgressesOnDrop(c: Cytosol, input: Input, screenWidth: int, screenHeight: int,
                                    fresh1: string, fresh2: string, h: Helpers)
    requires CytosolValid(c, h)
    ensures var (r, _) := TranslationFrame(c, input, screenWidth, screenHeight, fresh1, fresh2, h);
      var k := c.progress.mrnaPtr;
      (r.progress.mrnaPtr != k || r.progress.mrna[k].isComplete) <==>
        (c.progress.mrna[k].isComplete || TrnaDrop(c, input, h))
  {
  }

  // ---------------------------------------------------------------------------
  // The Transcription level's objects

  /** The objects a Transcription frame updates, as main.go's globals. */
  class TranscriptionScene {
    const game: GameState
    const polymerase: RNAPolymerase
    const tfa: TFA
    const info: InfoPage
    const right: CodonChoice
    const wrong1: CodonChoice
    const wrong2: CodonChoice

    constructor (game: GameState, polymerase: RNAPolymerase, tfa: TFA, info: InfoPage,
                 right: CodonChoice, wrong1: CodonChoice, wrong2: CodonChoice)
      ensures this.game == game && this.polymerase == polymerase && this.tfa == tfa && this.info == info
      ensures this.right == right && this.wrong1 == wrong1 && this.wrong2 == wrong2
    {
      this.game, this.polymerase, this.tfa, this.info := game, polymerase, tfa, info;
      this.right, this.wrong1, this.wrong2 := right, wrong1, wrong2;
    }

    function Snapshot(): Nucleus
      reads game, game.dna, game.mrna, polymerase, tfa, info, right, right.bases, wrong1, wrong2
    {
      Nucleus(game.Snapshot(), polymerase.rect, tfa.State(), info.State(), right.State(), wrong1.codon, wrong2.codon)
    }

    ghost predicate Valid(h: Helpers)
      reads this, game, game.dna, game.mrna, polymerase, tfa, info, right, right.bases, wrong1, wrong2
    {
      && game.Valid() && tfa.kind == Tfa2
      && right != wrong1 && right != wrong2 && wrong1 != wrong2
      && NucleusValid(Snapshot(), h)
    }

    /** The moving half of the frame (main.go:253-258). */
    method MoveAll(input: Input, screenWidth: int, screenHeight: int, h: Helpers)
      requires Valid(h)
      modifies game, game.dna, polymerase, tfa, info
      ensures game.Valid() && game.seedSignal == old(game.seedSignal) && game.template == old(game.template)
      ensures Snapshot() == NucleusMovers(old(Snapshot()), input, screenWidth, screenHeight, h)
      ensures tfa.origImage == old(tfa.origImage2) && tfa.origImage2 == old(tfa.origImage2)
    {
      tfa.Activate(screenHeight);
      tfa.Update(polymerase.rect.pos, screenWidth, screenHeight);
      polymerase.Update(game, tfa.rect.pos.y, screenWidth, screenHeight);
      info.Update(input, screenWidth, screenHeight, h);
    }

    /** main.go:262-267 on the objects. */
    method RegenerateChoices(fresh1: string, fresh2: string, h: Helpers)
      requires game.Valid() && right != wrong1 && right != wrong2 && wrong1 != wrong2
      requires game.currentFrag < StrandLength
      modifies game, right, wrong1, wrong2
      ensures game.Valid() && game.seedSignal == old(game.seedSignal) && game.template == old(game.template)
      ensures Snapshot() == Regenerate(old(Snapshot()), fresh1, fresh2, h)
      ensures wrong1.rect == old(wrong1.rect) && wrong1.isDragged == old(wrong1.isDragged)
      ensures wrong2.rect == old(wrong2.rect) && wrong2.isDragged == old(wrong2.isDragged)
    {
      if game.reset {
        right.codon := h.transcribe(game.dna[game.currentFrag].codon);
        wrong1.codon := fresh1;
        wrong2.codon := fresh2;
        game.reset := false;
      }
    }

    /** main.go:270-276 on the objects, with the tile updated every frame. */
    method PlayTile(input: Input, h: Helpers)
      requires game.Valid() && game.currentFrag < StrandLength && |right.codon| >= right.bases.Length
      modifies game, game.dna, right, right.bases
      ensures game.Valid() && game.seedSignal == old(game.seedSignal) && game.template == old(game.template)
      ensures Snapshot() == Play(old(Snapshot()), input, h, true)
    {
      var k := game.currentFrag;
      right.Update(game.dna, k, input, polymerase.rect, false, h);
      assert game.dna[..] == old(game.dna[..])[k := game.dna[k]];
      if game.dna[k].isComplete {
        game.NextDnaCodon();
      }
    }

    /** One Transcription frame as intended (see TranscriptionFrame). */
    method Update(input: Input, screenWidth: int, screenHeight: int, fresh1: string, fresh2: string, h: Helpers)
      requires Valid(h)
      modifies game, game.dna, polymerase, tfa, info, right, right.bases, wrong1, wrong2
      ensures Valid(h)
      ensures Snapshot() == TranscriptionFrame(old(Snapshot()), input, screenWidth, screenHeight, fresh1, fresh2, h)
      ensures game.seedSignal == old(game.seedSignal) && game.template == old(game.template)
      ensures tfa.origImage == old(tfa.origImage2) && tfa.origImage2 == old(tfa.origImage2)
      ensures wrong1.rect == old(wrong1.rect) && wrong1.isDragged == old(wrong1.isDragged)
      ensures wrong2.rect == old(wrong2.rect) && wrong2.isDragged == old(wrong2.isDragged)
    {
      ghost var n := Snapshot();
      TranscriptionFrameKeepsValid(n, input, screenWidth, screenHeight, fresh1, fresh2, h);
      MoveAll(input, screenWidth, screenHeight, h);
      ghost var m := Snapshot();
      assert m == NucleusMovers(n, input, screenWidth, screenHeight, h);
      if game.currentFrag < 5 {
        RegenerateChoices(fresh1, fresh2, h);
        ghost var g := Snapshot();
        assert NucleusValid(g, h);
        PlayTile(input, h);
      }
    }
  }
}
