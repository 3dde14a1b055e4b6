/** The puzzle engine shared by the Transcription and Translation levels: the
    DNA template strand, the mRNA strand built from it, and the global
    counters `currentFrag` and `mrna_ptr` that say which codon the player is
    working on (main.go's globals, gui.go's nextDNACodon and nextMRNACodon). */
module Puzzle {
  import opened Geometry

  /** Number of codons on each strand (`[5]Template`). */
  const StrandLength: int := 5

  /** Last index of the mRNA strand; `mrna_ptr` never goes past it. */
  const LastCodon: int := 4

  /** One codon of a strand (gui.go's Template, without its image). */
  datatype Template = Template(codon: string, fragment: int, rect: Rect, isComplete: bool)

  /** The globals the puzzle steps read and write. `next` is the polymerase's
      "move on to the next codon" flag, raised by nextDNACodon. */
  datatype Progress = Progress(
    currentFrag: int,
    mrnaPtr: int,
    reset: bool,
    next: bool,
    dna: seq<Template>,
    mrna: seq<Template>)

  /** The ranges the counters keep: `currentFrag` runs from 0 to 5 (5 meaning
      every DNA codon is done), `mrna_ptr` from 0 to 4. */
  predicate ProgressValid(p: Progress) {
    && 0 <= p.currentFrag <= StrandLength
    && 0 <= p.mrnaPtr <= LastCodon
    && |p.dna| == StrandLength
    && |p.mrna| == StrandLength
  }

  function Min(a: int, b: int): int { if a <= b then a else b }

  // ---------------------------------------------------------------------------
  // nextDNACodon

  /** nextDNACodon: move to the next DNA codon and set the polymerase moving,
      unless all five are done, in which case nothing happens. */
  function NextDna(p: Progress): (r: Progress)
    ensures p.currentFrag <= StrandLength ==> r.currentFrag == Min(p.currentFrag + 1, StrandLength)
    ensures r.currentFrag >= p.currentFrag
    ensures r.next <==> (p.next || p.currentFrag < StrandLength)
    ensures r.currentFrag != p.currentFrag ==> r.next
    ensures r.(currentFrag := p.currentFrag, next := p.next) == p
    ensures ProgressValid(p) ==> ProgressValid(r)
  {
    if p.currentFrag < StrandLength then p.(currentFrag := p.currentFrag + 1, next := true) else p
  }

  function NextDnaTimes(p: Progress, n: nat): Progress
    decreases n
  {
    if n == 0 then p else NextDnaTimes(NextDna(p), n - 1)
  }

  /** However often nextDNACodon is called, `currentFrag` climbs one per call
      and stops at 5; the strands themselves are never touched. */
  lemma {:induction false} NextDnaSaturates(p: Progress, n: nat)
    requires 0 <= p.currentFrag <= StrandLength
    ensures NextDnaTimes(p, n).currentFrag == Min(p.currentFrag + n, StrandLength)
    ensures NextDnaTimes(p, n).dna == p.dna && NextDnaTimes(p, n).mrna == p.mrna
    ensures NextDnaTimes(p, n).mrnaPtr == p.mrnaPtr && NextDnaTimes(p, n).reset == p.reset
    decreases n
  {
    if n > 0 {
      NextDnaSaturates(NextDna(p), n - 1);
    }
  }

  // ---------------------------------------------------------------------------
  // nextMRNACodon

  /** nextMRNACodon: move to the next mRNA codon, clear its completion and ask
      for the choices to be regenerated; at the last codon, go back to the menu
      (`toMenu`) and drop any pending regeneration. */
  function NextMrna(p: Progress): (r: (Progress, bool))
    requires 0 <= p.mrnaPtr && |p.mrna| == StrandLength
    ensures var (q, toMenu) := r;
      && (toMenu <==> p.mrnaPtr >= LastCodon)
      && (!toMenu ==>
            && q.mrnaPtr == p.mrnaPtr + 1 && q.reset
            && |q.mrna| == |p.mrna| && !q.mrna[q.mrnaPtr].isComplete
            && (forall i | 0 <= i < |p.mrna| && i != q.mrnaPtr :: q.mrna[i] == p.mrna[i])
            && q.mrna[q.mrnaPtr] == p.mrna[q.mrnaPtr].(isComplete := false))
      && (toMenu ==> q == p.(reset := false))
      && q.(mrnaPtr := p.mrnaPtr, reset := p.reset, mrna := p.mrna) == p
      && (ProgressValid(p) ==> ProgressValid(q))
  {
    if p.mrnaPtr < LastCodon then
      var k := p.mrnaPtr + 1;
      (p.(mrnaPtr := k, mrna := p.mrna[k := p.mrna[k].(isComplete := false)], reset := true), false)
    else
      (p.(reset := false), true)
  }

  function NextMrnaTimes(p: Progress, n: nat): Progress
    requires ProgressValid(p)
    decreases n
  {
    if n == 0 then p else NextMrnaTimes(NextMrna(p).0, n - 1)
  }

  /** The mRNA pointer climbs one per call and rests on the last codon, where
      every further call asks for the menu. */
  lemma {:induction false} NextMrnaSaturates(p: Progress, n: nat)
    requires ProgressValid(p)
    ensures ProgressValid(NextMrnaTimes(p, n))
    ensures NextMrnaTimes(p, n).mrnaPtr == Min(p.mrnaPtr + n, LastCodon)
    ensures NextMrnaTimes(p, n).currentFrag == p.currentFrag && NextMrnaTimes(p, n).dna == p.dna
    ensures p.mrnaPtr + n >= LastCodon ==> NextMrna(NextMrnaTimes(p, n)).1
    decreases n
  {
    if n > 0 {
      NextMrnaSaturates(NextMrna(p).0, n - 1);
    }
  }

  // ---------------------------------------------------------------------------
  // Strand setup in Game.init

  /** The template-strand form of the stop codon chosen by the signal. */
  function StopTemplate(seed: int): string {
    if seed == 1 then "ACT" else if seed == 3 then "ATC" else "ATT"
  }

  /** The `switch seedSignal` of Game.init: a start codon, the three random
      codons in order, and a stop codon that depends on the signal. A seed
      outside 1..4 leaves the template at its zero value. */
  function TemplateFor(seed: int, r1: string, r2: string, r3: string): (t: seq<string>)
    ensures |t| == StrandLength
    ensures 1 <= seed <= 4 ==>
              && t[0] == "TAC" && t[1..4] == [r1, r2, r3]
              && t[4] in {"ACT", "ATT", "ATC"}
              && (t[4] == "ACT" <==> seed == 1)
              && (t[4] == "ATC" <==> seed == 3)
    ensures !(1 <= seed <= 4) ==> forall i | 0 <= i < |t| :: t[i] == ""
  {
    match seed
    case 1 => ["TAC", r1, r2, r3, "ACT"]
    case 2 => ["TAC", r1, r2, r3, "ATT"]
    case 3 => ["TAC", r1, r2, r3, "ATC"]
    case 4 => ["TAC", r1, r2, r3, "ATT"]
    case _ => ["", "", "", "", ""]
  }

  /** Every seed rand.Intn(4) + 1 can produce gives a template of five
      three-letter codons when the random codons are three letters long. */
  lemma TemplateCodonsFit(roll: int, r1: string, r2: string, r3: string)
    requires 0 <= roll < 4 && |r1| == 3 && |r2| == 3 && |r3| == 3
    ensures var t := TemplateFor(roll + 1, r1, r2, r3);
      forall i | 0 <= i < |t| :: |t[i]| == 3
  {
  }

  function DnaTemplate(codon: string, x: int): Template {
    Template(codon, x, Rect(Vector(-50 + 200 * x, 500), 150, 150), false)
  }

  function MrnaTemplate(codon: string, x: int): Template {
    Template(codon, x, Rect(Vector(0, 400), 150, 150), false)
  }

  /** The DNA strand laid out from the template (main.go's first loop). */
  function DnaStrand(template: seq<string>): (dna: seq<Template>)
    requires |template| == StrandLength
    ensures |dna| == StrandLength
    ensures forall x | 0 <= x < StrandLength :: dna[x] == DnaTemplate(template[x], x)
  {
    seq(StrandLength, x requires 0 <= x < StrandLength => DnaTemplate(template[x], x))
  }

  /** The mRNA strand: each codon transcribed from the DNA codon at the same
      position (main.go's third loop). */
  function MrnaStrand(dna: seq<Template>, transcribe: string -> string): (mrna: seq<Template>)
    requires |dna| == StrandLength
    ensures |mrna| == StrandLength
    ensures forall x | 0 <= x < StrandLength :: mrna[x] == MrnaTemplate(transcribe(dna[x].codon), x)
  {
    seq(StrandLength, x requires 0 <= x < StrandLength => MrnaTemplate(transcribe(dna[x].codon), x))
  }

  /** The two strands pair up codon for codon: same fragment index, the mRNA
      codon transcribed from the DNA codon, nothing complete yet, and the DNA
      codons laid left to right 200 pixels apart without overlapping. */
  lemma StrandsPair(template: seq<string>, transcribe: string -> string)
    requires |template| == StrandLength
    ensures var dna := DnaStrand(template);
      var mrna := MrnaStrand(dna, transcribe);
      && (forall x | 0 <= x < StrandLength ::
            && dna[x].codon == template[x] && dna[x].fragment == x && mrna[x].fragment == x
            && mrna[x].codon == transcribe(template[x])
            && !dna[x].isComplete && !mrna[x].isComplete)
      && (forall x | 0 <= x < StrandLength - 1 ::
            && dna[x].rect.pos.x + dna[x].rect.width < dna[x + 1].rect.pos.x
            && dna[x + 1].rect.pos.x - dna[x].rect.pos.x == 200)
  {
  }

  // ---------------------------------------------------------------------------
  // The globals as an object

  /** main.go's puzzle globals: the counters, the pending-reset flag, the
      polymerase's `next` flag, the seed and template, and the two strands. */
  class GameState {
    var currentFrag: int
    var mrnaPtr: int
    var reset: bool
    var polymeraseNext: bool
    var seedSignal: int
    var template: seq<string>
    const dna: array<Template>
    const mrna: array<Template>

    function Snapshot(): Progress
      reads this, dna, mrna
    {
      Progress(currentFrag, mrnaPtr, reset, polymeraseNext, dna[..], mrna[..])
    }

    ghost predicate Valid()
      reads this, dna, mrna
    {
      dna != mrna && ProgressValid(Snapshot())
    }

    /** Game.init's strand setup. `roll` is rand.Intn(4) and r1..r3 the three
        randomDNACodon results. */
    constructor Init(roll: int, r1: string, r2: string, r3: string, transcribe: string -> string)
      requires 0 <= roll < 4
      ensures Valid() && fresh(dna) && fresh(mrna)
      ensures seedSignal == roll + 1 && template == TemplateFor(seedSignal, r1, r2, r3)
      ensures Snapshot() == Progress(0, 0, false, false, DnaStrand(template), MrnaStrand(DnaStrand(template), transcribe))
    {
      currentFrag, mrnaPtr := 0, 0;
      polymeraseNext := false;
      seedSignal := roll + 1;
      var t := TemplateFor(roll + 1, r1, r2, r3);
      template := t;
      var d := new Template[StrandLength];
      for x := 0 to StrandLength
        invariant forall i | 0 <= i < x :: d[i] == DnaTemplate(t[i], i)
      {
        d[x] := Template(t[x], x, Rect(Vector(-50 + 200 * x, 500), 150, 150), false);
      }
      assert d[..] == DnaStrand(t);
      var m := new Template[StrandLength];
      for x := 0 to StrandLength
        invariant d[..] == DnaStrand(t)
        invariant forall i | 0 <= i < x :: m[i] == MrnaTemplate(transcribe(d[i].codon), i)
      {
        m[x] := Template(transcribe(d[x].codon), x, Rect(Vector(0, 400), 150, 150), false);
      }
      dna, mrna := d, m;
      reset := false;
      assert m[..] == MrnaStrand(d[..], transcribe);
    }

    /** nextDNACodon on the globals. */
    method NextDnaCodon()
      requires Valid()
      modifies this
      ensures Valid()
      ensures Snapshot() == NextDna(old(Snapshot()))
      ensures seedSignal == old(seedSignal) && template == old(template)
    {
      if currentFrag < 5 {
        currentFrag := currentFrag + 1;
        polymeraseNext := true;
      }
    }

    /** nextMRNACodon on the globals; `toMenu` stands for the call to ToMenu. */
    method NextMrnaCodon() returns (toMenu: bool)
      requires Valid()
      modifies this, mrna
      ensures Valid()
      ensures (Snapshot(), toMenu) == NextMrna(old(Snapshot()))
      ensures seedSignal == old(seedSignal) && template == old(template)
    {
      if mrnaPtr < 4 {
        mrnaPtr := mrnaPtr + 1;
        mrna[mrnaPtr] := mrna[mrnaPtr].(isComplete := false);
        reset := true;
        toMenu := false;
      } else {
        toMenu := true;
        reset := false;
      }
    }
  }
}
