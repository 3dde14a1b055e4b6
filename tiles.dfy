/** The codon tiles the player drags onto the polymerase (CodonChoice) or the
    ribosome (tRNA), and the nucleobase glyphs drawn on them (gui.go). */
module Tiles {
  import opened Geometry
  import opened Puzzle

  type ImageId = string

  /** A letter drawn on a tile: its base type, where it sits, and its image. */
  datatype Nucleobase = Nucleobase(baseType: string, rect: Rect, image: ImageId)

  /** The base letters a tile shows with their own glyph. */
  const BaseLetters: set<string> := {"A", "T", "G", "C", "U"}

  /** gui.go's nucleobaseImages table. */
  const NucleobaseImages: map<string, ImageId> := map[
    "A" := "adenine.png",
    "T" := "thymine.png",
    "G" := "guanine.png",
    "C" := "cytosine.png",
    "U" := "uracil.png",
    "N/A" := "empty.png",
    "STOP" := "empty.png",
    "amino" := "aminoAcid.png"]

  /** newNucleobase's choice of image: a base letter gets its own glyph,
      "N/A" and "STOP" the empty glyph, and anything else (an amino acid
      name) the amino-acid glyph. */
  function NucleobaseImage(baseType: string): (path: ImageId)
    ensures path in NucleobaseImages.Values
    ensures path == "aminoAcid.png" <==> baseType !in BaseLetters + {"N/A", "STOP"}
    ensures path == "empty.png" <==> baseType in {"N/A", "STOP"}
    ensures baseType in BaseLetters ==> path == NucleobaseImages[baseType]
  {
    if baseType != "A" && baseType != "T" && baseType != "G" && baseType != "C" && baseType != "U"
       && baseType != "N/A" && baseType != "STOP"
    then NucleobaseImages["amino"]
    else NucleobaseImages[baseType]
  }

  /** Different base letters are drawn with different glyphs, none of which
      is the empty or the amino-acid glyph. */
  lemma BaseGlyphsDistinct(b1: string, b2: string)
    requires b1 in BaseLetters && b2 in BaseLetters && b1 != b2
    ensures NucleobaseImage(b1) != NucleobaseImage(b2)
    ensures NucleobaseImage(b1) !in {"empty.png", "aminoAcid.png"}
  {
  }

  /** The glyph switch at the end of CodonChoice.update: a base letter takes
      its glyph, anything else keeps the image it had. */
  function Glyph(baseType: string, current: ImageId): (image: ImageId)
    ensures baseType in BaseLetters ==> image == NucleobaseImage(baseType)
    ensures baseType !in BaseLetters ==> image == current
  {
    if baseType in BaseLetters then NucleobaseImages[baseType] else current
  }

  /** Where base `i` of a tile at `tile` sits: on a tRNA (translation) the row
      starts 75 right of the tile and 300 below it, otherwise 100 right and
      125 below. */
  function BaseSpot(tile: Vector, i: int, translation: bool): Vector {
    if translation then Vector(75 + tile.x + 50 * i, tile.y + 300)
    else Vector(100 + tile.x + 50 * i, tile.y + 125)
  }

  function PlaceBase(b: Nucleobase, letter: char, i: int, tile: Vector, translation: bool): Nucleobase {
    Nucleobase([letter], b.rect.(pos := BaseSpot(tile, i, translation)), Glyph([letter], b.image))
  }

  /** The base loop of CodonChoice.update: base i shows letter i of the codon
      with its glyph, in a row 50 pixels apart that moves with the tile. */
  function LayBases(bases: seq<Nucleobase>, codon: string, tile: Vector, translation: bool): (r: seq<Nucleobase>)
    requires |codon| >= |bases|
    ensures |r| == |bases|
    ensures forall i | 0 <= i < |r| ::
              && r[i].baseType == [codon[i]]
              && r[i].rect.width == bases[i].rect.width && r[i].rect.height == bases[i].rect.height
              && r[i].image == Glyph([codon[i]], bases[i].image)
    ensures forall i | 0 < i < |r| ::
              r[i].rect.pos == Vector(r[i - 1].rect.pos.x + 50, r[i - 1].rect.pos.y)
    ensures 0 < |r| ==>
              r[0].rect.pos == (if translation then Vector(tile.x + 75, tile.y + 300) else Vector(tile.x + 100, tile.y + 125))
  {
    seq(|bases|, i requires 0 <= i < |bases| => PlaceBase(bases[i], codon[i], i, tile, translation))
  }

  /** A tile's fields, with its bases. */
  datatype ChoiceState = ChoiceState(rect: Rect, codon: string, isDragged: bool, bases: seq<Nucleobase>)

  /** CodonChoice.update. A just-pressed click inside the tile picks it up; a
      release inside it drops it, and the drop completes `frag` exactly when
      the tile overlaps the drop zone (the polymerase, or the ribosome when
      `translation`) and its codon is the transcription of the fragment's.
      A held tile is centred on the pointer, and the bases follow the tile. */
  function ChoiceStep(c: ChoiceState, frag: Template, input: Input, zone: Rect, translation: bool, h: Helpers)
    : (r: (ChoiceState, Template))
    requires |c.codon| >= |c.bases|
    ensures var (t, f) := r;
      && f == frag.(isComplete := f.isComplete)
      && (frag.isComplete ==> f.isComplete)
      && (f.isComplete && !frag.isComplete <==>
            && !frag.isComplete
            && h.pointIn(c.rect, input.cursor) && !input.justPressed && input.justReleased
            && h.overlap(c.rect, zone) && c.codon == h.transcribe(frag.codon))
      && (h.pointIn(c.rect, input.cursor) && input.justPressed ==> t.isDragged)
      && (h.pointIn(c.rect, input.cursor) && !input.justPressed && input.justReleased ==> !t.isDragged)
      && (!h.pointIn(c.rect, input.cursor) ==> t.isDragged == c.isDragged)
      && (t.isDragged ==>
            t.rect.pos == Vector(input.cursor.x - GoDiv(c.rect.width, 2), input.cursor.y - GoDiv(c.rect.height, 2)))
      && (!t.isDragged ==> t.rect == c.rect)
      && t.rect.width == c.rect.width && t.rect.height == c.rect.height
      && t.codon == c.codon
      && t.bases == LayBases(c.bases, c.codon, t.rect.pos, translation)
  {
    var (t, f) := ChoiceHandle(c, frag, input, zone, h);
    (t.(bases := LayBases(t.bases, t.codon, t.rect.pos, translation)), f)
  }

  /** The click handling and dragging of CodonChoice.update, before the
      bases are relaid. */
  function ChoiceHandle(c: ChoiceState, frag: Template, input: Input, zone: Rect, h: Helpers)
    : (r: (ChoiceState, Template))
    ensures r.0.codon == c.codon && r.0.bases == c.bases
  {
    var inside := h.pointIn(c.rect, input.cursor);
    var grabbed := inside && input.justPressed;
    var dropped := inside && !input.justPressed && input.justReleased;
    var dragged := if grabbed then true else if dropped then false else c.isDragged;
    var completes := dropped && h.overlap(c.rect, zone) && c.codon == h.transcribe(frag.codon);
    var f := if completes then frag.(isComplete := true) else frag;
    var rect := if dragged then Drag(c.rect, true, true, input.cursor) else c.rect;
    (ChoiceState(rect, c.codon, dragged, c.bases), f)
  }

  /** A frame whose click was a press, not a release, completes nothing. */
  lemma PressNeverCompletes(c: ChoiceState, frag: Template, input: Input, zone: Rect, translation: bool, h: Helpers)
    requires |c.codon| >= |c.bases|
    requires WellFormed(input) && input.justPressed
    ensures ChoiceStep(c, frag, input, zone, translation, h).1 == frag
  {
  }

  /** CodonChoice.reset: move the tile to spot `index` at height `yPos` and
      give it a new codon; the bases are relaid on the next update. */
  function ChoiceReset(c: ChoiceState, index: int, yPos: int, newBases: string, spots: seq<int>): (r: ChoiceState)
    requires 0 <= index < |spots|
    ensures r.rect.pos == Vector(spots[index], yPos) && r.codon == newBases
    ensures r == c.(rect := r.rect, codon := r.codon) && r.rect == c.rect.(pos := r.rect.pos)
  {
    c.(rect := c.rect.(pos := Vector(spots[index], yPos)), codon := newBases)
  }

  /** After a reset, the next update that does not touch the tile shows the
      new codon's letters at the new spot and completes nothing. */
  lemma ResetThenIdleUpdate(c: ChoiceState, index: int, yPos: int, newBases: string, spots: seq<int>,
                            frag: Template, input: Input, zone: Rect, translation: bool, h: Helpers)
    requires 0 <= index < |spots| && |newBases| >= |c.bases| && !c.isDragged
    requires !h.pointIn(ChoiceReset(c, index, yPos, newBases, spots).rect, input.cursor)
    ensures var (t, f) := ChoiceStep(ChoiceReset(c, index, yPos, newBases, spots), frag, input, zone, translation, h);
      && f == frag && !t.isDragged && t.rect.pos == Vector(spots[index], yPos)
      && (forall i | 0 <= i < |t.bases| :: t.bases[i].baseType == [newBases[i]])
      && (0 < |t.bases| ==> t.bases[0].rect.pos == BaseSpot(Vector(spots[index], yPos), 0, translation))
  {
  }

  /** A codon tile: gui.go's CodonChoice, with its three bases in an array. */
  class CodonChoice {
    var rect: Rect
    var codon: string
    var isDragged: bool
    const bases: array<Nucleobase>

    function State(): ChoiceState
      reads this, bases
    {
      ChoiceState(rect, codon, isDragged, bases[..])
    }

    /** newCodonChoice: one base per letter of the codon, rotated under the
        tile; the remaining slots keep Go's zero value. */
    constructor (rect: Rect, codon: string)
      requires |codon| <= 3
      ensures fresh(bases) && bases.Length == 3
      ensures this.rect == rect && this.codon == codon && !isDragged
      ensures forall x | 0 <= x < |codon| ::
                bases[x] == Nucleobase([codon[x]], Rect(Vector(100 + rect.pos.x + 50 * x, rect.pos.y + 500), 65, 150),
                                       NucleobaseImage([codon[x]]))
      ensures forall x | |codon| <= x < 3 :: bases[x] == Nucleobase("", Rect(Vector(0, 0), 0, 0), "")
    {
      var b := new Nucleobase[3](_ => Nucleobase("", Rect(Vector(0, 0), 0, 0), ""));
      for x := 0 to |codon|
        invariant forall i | 0 <= i < x ::
                    b[i] == Nucleobase([codon[i]], Rect(Vector(100 + rect.pos.x + 50 * i, rect.pos.y + 500), 65, 150),
                                       NucleobaseImage([codon[i]]))
        invariant forall i | x <= i < 3 :: b[i] == Nucleobase("", Rect(Vector(0, 0), 0, 0), "")
      {
        b[x] := Nucleobase([codon[x]], Rect(Vector(100 + rect.pos.x + 50 * x, rect.pos.y + 500), 65, 150),
                           NucleobaseImage([codon[x]]));
      }
      this.rect := rect;
      this.codon := codon;
      isDragged := false;
      bases := b;
    }

    /** CodonChoice.update with `frag` the k-th codon of `strand`. */
    method Update(strand: array<Template>, k: int, input: Input, zone: Rect, translation: bool, h: Helpers)
      requires 0 <= k < strand.Length && |codon| >= bases.Length
      modifies this, bases, strand
      ensures (State(), strand[k]) == ChoiceStep(old(State()), old(strand[k]), input, zone, translation, h)
      ensures forall i | 0 <= i < strand.Length && i != k :: strand[i] == old(strand[i])
    {
      Handle(strand, k, input, zone, h);
      LayOutBases(translation);
    }

    method Handle(strand: array<Template>, k: int, input: Input, zone: Rect, h: Helpers)
      requires 0 <= k < strand.Length
      modifies this, strand
      ensures (State(), strand[k]) == ChoiceHandle(old(State()), old(strand[k]), input, zone, h)
      ensures forall i | 0 <= i < strand.Length && i != k :: strand[i] == old(strand[i])
    {
      var cursor := input.cursor;
      if h.pointIn(rect, cursor) {
        if input.justPressed {
          isDragged := true;
        } else if input.justReleased {
          isDragged := false;
          if h.overlap(rect, zone) && codon == h.transcribe(strand[k].codon) {
            strand[k] := strand[k].(isComplete := true);
          }
        }
      }
      if isDragged {
        rect := Drag(rect, true, true, cursor);
      }
    }

    /** The base loop of CodonChoice.update. */
    method LayOutBases(translation: bool)
      requires |codon| >= bases.Length
      modifies bases
      ensures bases[..] == LayBases(old(bases[..]), codon, rect.pos, translation)
    {
      for x := 0 to bases.Length
        invariant forall i | 0 <= i < x :: bases[i] == PlaceBase(old(bases[i]), codon[i], i, rect.pos, translation)
        invariant forall i | x <= i < bases.Length :: bases[i] == old(bases[i])
      {
        var b := bases[x].(baseType := [codon[x]]);
        if translation {
          b := b.(rect := b.rect.(pos := Vector(75 + rect.pos.x + 50 * x, rect.pos.y + 300)));
        } else {
          b := b.(rect := b.rect.(pos := Vector(100 + rect.pos.x + 50 * x, rect.pos.y + 125)));
        }
        if b.baseType == "A" {
          b := b.(image := NucleobaseImages["A"]);
        } else if b.baseType == "T" {
          b := b.(image := NucleobaseImages["T"]);
        } else if b.baseType == "G" {
          b := b.(image := NucleobaseImages["G"]);
        } else if b.baseType == "C" {
          b := b.(image := NucleobaseImages["C"]);
        } else if b.baseType == "U" {
          b := b.(image := NucleobaseImages["U"]);
        }
        bases[x] := b;
      }
    }

    method Reset(index: int, yPos: int, newBases: string, spots: seq<int>)
      requires 0 <= index < |spots|
      modifies this
      ensures State() == ChoiceReset(old(State()), index, yPos, newBases, spots)
    {
      rect := rect.(pos := Vector(spots[index], yPos));
      codon := newBases;
    }
  }

  /** A tRNA tile: a codon tile carrying its amino acid 25 pixels right of
      and above the tile's corner. */
  class TRna {
    const choice: CodonChoice
    var aminoAcid: Nucleobase

    /** newTRNA: the tile shows the transcription of `codon`, and the amino
        acid sits on the tile with its own glyph. */
    constructor (rect: Rect, codon: string, amino: string, h: Helpers)
      requires |h.transcribe(codon)| <= 3
      ensures fresh(choice) && fresh(choice.bases) && choice.bases.Length == 3
      ensures choice.rect == rect && choice.codon == h.transcribe(codon) && !choice.isDragged
      ensures aminoAcid == Nucleobase(amino, rect, NucleobaseImage(amino))
    {
      choice := new CodonChoice(rect, h.transcribe(codon));
      aminoAcid := Nucleobase(amino, rect, NucleobaseImage(amino));
    }

    /** tRNA.update: the tile's update against the ribosome, then the amino
        acid follows the tile. */
    method Update(strand: array<Template>, k: int, input: Input, ribosome: Rect, h: Helpers)
      requires 0 <= k < strand.Length && |choice.codon| >= choice.bases.Length
      modifies this, choice, choice.bases, strand
      ensures (choice.State(), strand[k]) == ChoiceStep(old(choice.State()), old(strand[k]), input, ribosome, true, h)
      ensures forall i | 0 <= i < strand.Length && i != k :: strand[i] == old(strand[i])
      ensures aminoAcid == old(aminoAcid).(rect := old(aminoAcid.rect).(pos := Vector(choice.rect.pos.x + 25, choice.rect.pos.y - 25)))
    {
      choice.Update(strand, k, input, ribosome, true, h);
      aminoAcid := aminoAcid.(rect := aminoAcid.rect.(pos := aminoAcid.rect.pos.(x := choice.rect.pos.x + 25)));
      aminoAcid := aminoAcid.(rect := aminoAcid.rect.(pos := aminoAcid.rect.pos.(y := choice.rect.pos.y - 25)));
    }

    /** tRNA.reset: the tile moves to spot `index` showing the transcription of
        `newBases`, and the amino acid is relabelled; a STOP shows the stop
        glyph, anything else the amino-acid glyph. */
    method Reset(index: int, yPos: int, newBases: string, newAminoAcid: string, spots: seq<int>,
                 h: Helpers, stopImage: ImageId, aminoImage: ImageId)
      requires 0 <= index < |spots|
      modifies this, choice
      ensures choice.State() == ChoiceReset(old(choice.State()), index, yPos, h.transcribe(newBases), spots)
      ensures aminoAcid == old(aminoAcid).(baseType := newAminoAcid,
                                            image := if newAminoAcid == "STOP" then stopImage else aminoImage)
    {
      choice.Reset(index, yPos, h.transcribe(newBases), spots);
      aminoAcid := aminoAcid.(baseType := newAminoAcid);
      if aminoAcid.baseType == "STOP" {
        aminoAcid := aminoAcid.(image := stopImage);
      } else {
        aminoAcid := aminoAcid.(image := aminoImage);
      }
    }
  }
}
