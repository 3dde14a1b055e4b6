# Cell Signaling Pathway Simulator — a Dafny model of its game core

The Cell Signaling Pathway Simulator is an ebiten game. The player walks a
signal through the cell's pathway in several scenes:

- signal reception at the membrane: a draggable signal and four cursor-tracking receptors;
- signal transduction: patrolling and temporary kinases and the transcription factors;
- transcription in the nucleus: the RNA polymerase walks the DNA template, and the player drops codon tiles on it;
- translation in the cytosol: the ribosome walks the mRNA, and the player drops tRNA tiles on it.

This project models the per-frame logic of `gui.go` (the sprites' update, bind,
activate, descend and reset methods, nextDNACodon and nextMRNACodon) and of
`main.go`. From `main.go` it models:

- the puzzle part of Game.init (the template, the DNA and the mRNA strands);
- the Transcription and Translation frames of Game.Update;
- the rescale gating and the scene switch of Game.Draw;
- Layout.

It then proves properties of that model.

Modules, one file each:

- `geometry.dfy` (Geometry): vectors, rectangles, Go's truncating division, the frame input, and Sprite.drag.
- `scenes.dfy` (Scenes): the scene state machine, the rescale gating, Layout, and the Game object Draw mutates.
- `entities.dfy` (Entities): Signal, Receptor, Kinase, TFA, InfoPage and Parallax.
- `puzzle.dfy` (Puzzle): the strands, the `currentFrag` / `mrna_ptr` counters, nextDNACodon, nextMRNACodon, and the strand setup of Game.init.
- `tiles.dfy` (Tiles): Nucleobase glyphs, CodonChoice and tRNA.
- `movers.dfy` (Movers): RNAPolymerase and Ribosome.
- `session.dfy` (Session): one Transcription frame and one Translation frame of Game.Update.

Each sprite whose methods update fields is a class, and each method is
proved equal to a step function on a value snapshot of those fields. The
properties are lemmas about, and contracts of, those step functions.

Integer arithmetic follows Go:

- `/` truncates toward zero (`Geometry.GoDiv`), which matters because the cursor-tracking formulas divide negative numbers.
- Ints are unbounded (see Left out).

Inputs that come from outside the core are parameters:

- the cursor, the mouse button state (pressed, just pressed, just released) and the fullscreen flag (`Geometry.Input`);
- the collision and transcription helpers defined in other files (`Geometry.Helpers`);
- the random numbers;
- the `spots` table used by the tile resets;
- the images that tRNA.reset assigns.

## Model

| member | source | states |
|---|---|---|
| Geometry.GoDivRemainder | gui.go:449-450 | Go's quotient leaves a remainder smaller than the divisor in magnitude, with the sign of the dividend (truncation, not Euclidean division) |
| Geometry.GoDivOdd | gui.go:449-450 | negating the dividend negates Go's quotient |
| Geometry.GoDivMonotone | gui.go:449-450 | for a positive divisor Go's quotient is monotone in the dividend |
| Geometry.Drag | gui.go:410-417 | a dragged axis puts the rect's corner half its size before the pointer; an undragged axis and the size are unchanged |
| Geometry.DragCentres | gui.go:410-417 | on a dragged axis the pointer sits at the rect's centre (sides differ by at most one pixel) and inside a rect of positive size |
| Scenes.FirstRaised | main.go:329-455 | the result is the current scene or a raised exit; with nothing raised it is the current scene; a raised first exit wins |
| Scenes.Transition | main.go:329-455 | a scene moves only to one of its own exits whose flag is raised, and stays put when no flag is raised |
| Scenes.TransitionUnrolled | main.go:329-455 | Transition is the priority chain over the scene's exits, step by step |
| Scenes.TransitionTargets | main.go:330-347 | About and Translation can only return to the menu; About leaves exactly when the menu flag is up; in the menu "about" beats "level select", which beats "plasma" |
| Scenes.NextScene | main.go:329-455 | the sequence of overriding `if`s in Draw's scene switch computes Transition |
| Scenes.RescaleGate | main.go:306-326 | the switched-scene flag is always spent; the number of rescales is one per fired mode test plus one per pending scene switch; entering fullscreen adopts the fullscreen size, leaving it restores the base size, otherwise the size is kept |
| Scenes.RescaleSettles | main.go:306-321 | once a frame has run in a display mode, a further frame in that mode rescales nothing and keeps the size |
| Scenes.SceneSwitchRescalesOnce | main.go:323-326 | a scene switch without a mode change costs exactly one rescale and clears the flag |
| Scenes.Layout | main.go:502-508 | the logical screen is the base size in a window and the outside size in fullscreen |
| Scenes.LayoutAgreesWithGate | main.go:306-318 | after a mode change the size Draw adopts is the size Layout reports |
| Scenes.Game.constructor | main.go:149-170 | a new game starts in the main menu at the base size with a rescale pending and no flag raised |
| Scenes.Game.Draw | main.go:304-455 | the new display state and rescale count are RescaleGate's, and the new scene is Transition of the old one |
| Entities.TrackOpposesCursor | gui.go:445-466 | a receptor or temporary kinase never moves right (down) when the cursor moves right (down) |
| Entities.SignalStep | gui.go:393-408 | a held signal stays held; a free one is picked up exactly when the button is down over it and does not move; a held one is centred on the pointer horizontally, and changes height only while both it and the pointer are above receptor B |
| Entities.Signal.constructor | gui.go:384-391 | a new signal is not dragged |
| Entities.Signal.Update | gui.go:393-408 | the new state is SignalStep of the old |
| Entities.BoundTo | gui.go:419-426 | a bound signal is released and parked on the receptor's top, 80 pixels right for receptors A and D and 60 for B and C, with its size kept |
| Entities.Signal.Bind | gui.go:419-426 | the new state is BoundTo of the old |
| Entities.BoundSignalStays | gui.go:393-426 | a bound signal that is not grabbed again stays exactly where bind put it |
| Entities.Receptor.constructor | gui.go:432-439 | a new receptor does not touch the signal |
| Entities.Receptor.Update | gui.go:445-466 | the receptor sits at its lane's cursor-tracking position (row 450 for A/D, 400 for B/C) with its size kept, and touches the signal exactly when they overlap there |
| Entities.Descended | gui.go:553-559 | descend moves the kinase straight down by 2 pixels, or 3 in fullscreen, and changes nothing else |
| Entities.KinaseStep | gui.go:484-536 | the moving flag and size are kept; the velocity flips to -3 at the right edge and to 3 at the left and is kept in between; a click is sticky, and tk1/tk2 becomes clicked exactly when the button is down over it while it touches its partner (never a temporary kinase); an idle or clicked tk1/tk2 stays put and otherwise moves only down or sideways |
| Entities.KinaseDeltaBounded | gui.go:531-535 | the patrol velocity stays in {-3, 3} |
| Entities.PatrolMovesByDelta | gui.go:509-521 | a patrolling tk1/tk2 below its descent line moves by exactly its velocity at the base size |
| Entities.KinaseActivate | gui.go:542-551 | every kinase starts moving; tk2, and a temporary kinase not yet moving, hop up three scaled pixels; nothing else changes |
| Entities.Kinase.constructor | gui.go:473-482 | a new kinase is idle, not clicked, and patrols right (velocity 3) |
| Entities.Kinase.Descend | gui.go:553-559 | the new state is Descended of the old |
| Entities.Kinase.Move | gui.go:487-521 | the new state is the movement part of update |
| Entities.Kinase.Update | gui.go:484-536 | the new state is KinaseStep of the old, and the velocity stays in {-3, 3} |
| Entities.Kinase.Activate | gui.go:542-564 | the new state is KinaseActivate of the old, and the sprite shows its second image |
| Entities.TfaActivate | gui.go:566-572 | both factors become active; tfa1 hops up three scaled pixels, tfa2 stays put |
| Entities.TfaStep | gui.go:583-599 | an inactive factor stays put; an active tfa2 rides the polymerase at (+60, +115) once it reaches x = 80; tfa1 only sinks, and stops once below the screen |
| Entities.TFA.constructor | gui.go:574-581 | a new factor is inactive |
| Entities.TFA.Activate | gui.go:566-604 | the new state is TfaActivate of the old, and the sprite shows its second image |
| Entities.TFA.Update | gui.go:583-599 | the new state is TfaStep of the old |
| Entities.InfoStep | gui.go:257-273 | a just-pressed click on the page flips button/page, swaps the images and lays the rect out for the new status; anything else leaves it unchanged |
| Entities.InfoToggleTwice | gui.go:257-273 | two toggling clicks restore the page exactly |
| Entities.InfoPage.constructor | gui.go:249-255 | a new info page has the given rect and status and shows its first image |
| Entities.InfoPage.Update | gui.go:257-273 | the new state is InfoStep of the old |
| Entities.ParallaxPos | gui.go:291-310 | only the main menu, signal reception, signal transduction and translation move a layer; every other scene leaves it where it is |
| Entities.ParallaxOpposesCursor | gui.go:291-310 | a parallax layer never moves right (down) when the cursor moves right (down) |
| Entities.Parallax.constructor | gui.go:283-289 | the layer keeps its rect and depth |
| Entities.Parallax.Update | gui.go:291-310 | the layer's position is its scene's parallax formula (unchanged in scenes without one); a zero depth is accepted in those other scenes |
| Puzzle.NextDna | gui.go:693-698 | currentFrag rises by one up to 5 and never falls; the polymerase is set moving exactly when it rises or was already; nothing else changes; the counter ranges are kept |
| Puzzle.NextDnaSaturates | gui.go:693-698 | after n calls currentFrag is min(start + n, 5), and the strands, mrna_ptr and reset are untouched |
| Puzzle.GameState.NextDnaCodon | gui.go:693-698 | the globals change as NextDna says |
| Puzzle.NextMrna | gui.go:700-709 | below the last codon mrna_ptr rises by one, that codon's completion is cleared, nothing else in the strand changes, and a reset is requested; at the last codon the menu is requested and the reset dropped |
| Puzzle.NextMrnaSaturates | gui.go:700-709 | after n calls mrna_ptr is min(start + n, 4), the DNA side is untouched, and once at 4 every further call requests the menu |
| Puzzle.GameState.NextMrnaCodon | gui.go:700-709 | the globals and the menu request are as NextMrna says |
| Puzzle.TemplateFor | main.go:179-192 | seeds 1..4 give TAC, the three random codons, and a stop codon (ACT exactly for seed 1, ATC exactly for seed 3, ATT otherwise); other seeds leave the template empty |
| Puzzle.TemplateCodonsFit | main.go:172-192 | every seed rand.Intn(4) + 1 produces a template of five three-letter codons |
| Puzzle.DnaStrand | main.go:194-196 | DNA codon x carries template codon x, fragment x, at (-50 + 200x, 500) |
| Puzzle.MrnaStrand | main.go:205-207 | mRNA codon x is the transcription of DNA codon x, fragment x |
| Puzzle.StrandsPair | main.go:194-207 | the strands pair codon for codon with nothing complete, and the DNA codons lie 200 pixels apart without overlapping |
| Puzzle.GameState.Init | main.go:172-218 | the seed is roll + 1, both counters are 0, nothing is pending, and the strands are DnaStrand and MrnaStrand of the template |
| Tiles.NucleobaseImage | gui.go:851-855 | a base letter gets its own glyph, N/A and STOP the empty glyph, anything else the amino-acid glyph |
| Tiles.BaseGlyphsDistinct | gui.go:868-877 | different base letters get different glyphs, none empty or amino |
| Tiles.Glyph | gui.go:757-768 | a base letter takes its glyph; any other letter keeps its image |
| Tiles.LayBases | gui.go:748-769 | base i shows codon letter i with its glyph, in a row 50 pixels apart starting at (+100, +125) from the tile, or at (+75, +300) on a tRNA |
| Tiles.ChoiceHandle | gui.go:725-747 | the codon and bases are left for the base loop |
| Tiles.ChoiceStep | gui.go:725-770 | the fragment is completed exactly by a release (not a press) inside the tile while it overlaps the drop zone and shows the fragment's transcription; a press picks the tile up, a release drops it, a held tile is centred on the pointer, a free one stays put; the bases are relaid with the codon |
| Tiles.PressNeverCompletes | gui.go:729-733 | a just-pressed frame never completes the fragment |
| Tiles.ChoiceReset | gui.go:779-782 | a reset moves the tile to spot `index` at `y_pos` and gives it the new codon, nothing else |
| Tiles.ResetThenIdleUpdate | gui.go:725-782 | after a reset, an update that does not touch the tile completes nothing and lays the new letters out at the new spot |
| Tiles.CodonChoice.constructor | gui.go:711-723 | base x of a new tile shows codon letter x at (100 + x + 50x, y + 500); unused slots keep Go's zero value |
| Tiles.CodonChoice.Update | gui.go:725-770 | the tile and its fragment change as ChoiceStep says, and no other codon of the strand changes |
| Tiles.CodonChoice.Handle | gui.go:725-747 | the tile and its fragment change as ChoiceHandle says |
| Tiles.CodonChoice.LayOutBases | gui.go:748-769 | the bases become LayBases of the old ones |
| Tiles.CodonChoice.Reset | gui.go:779-782 | the tile becomes ChoiceReset of the old one |
| Tiles.TRna.constructor | gui.go:784-791 | a new tRNA shows the transcription of its codon and carries its amino acid with its glyph |
| Tiles.TRna.Update | gui.go:793-797 | the tile changes as ChoiceStep against the ribosome says, and the amino acid follows at (+25, -25) |
| Tiles.TRna.Reset | gui.go:804-813 | the tile is reset to the transcription of the new bases, and the amino acid is relabelled with the stop image for STOP, the amino image otherwise |
| Movers.StepsAtLeast | gui.go:632-641 | at or above the base width a step right is at least 5 pixels and no step is negative |
| Movers.PolymeraseStep | gui.go:618-645 | an idle polymerase changes no puzzle state; a moving one slides right 5 scaled pixels until the codon's stop (160(k + 1)), or past the screen after the last codon; `next` falls exactly when the last branch runs, which clears the codon's completion (when the codon exists) and requests a reset; currentFrag and the mRNA side never change; the counter ranges are kept |
| Movers.PolymeraseStepAsWritten | gui.go:618-645 | the update with the unguarded write, defined only where Go's index is in range, agrees there with PolymeraseStep |
| Movers.PolymeraseMovesForward | gui.go:618-645 | the polymerase only moves right and down |
| Movers.PolymeraseIdle | gui.go:632-644 | any number of frames of a polymerase that is not moving leave the puzzle state unchanged |
| Movers.PolymeraseArrives | gui.go:632-644 | a moving polymerase within 5n pixels of its codon's stop has, after n + 1 frames, stopped on the same codon, requested a reset and cleared that codon's completion, leaving the other codons alone |
| Movers.PolymeraseOverrunsStrand | gui.go:632-641 | after the last codon a moving polymerase 5n pixels short of the screen edge reaches the writing branch within n + 1 frames with currentFrag equal to the strand length |
| Movers.PolymeraseLeavesStrandAlone | gui.go:632-641 | with the write guarded, once every codon is done no number of frames touches the strand or the counter |
| Movers.RNAPolymerase.constructor | gui.go:610-616 | the polymerase keeps its rect |
| Movers.RNAPolymerase.Update | gui.go:618-645 | the rect and the globals change as PolymeraseStep says |
| Movers.RibosomeStep | gui.go:823-845 | the ribosome waits while the current codon is incomplete; mrna_ptr advances exactly when that codon is complete, is not the last, and the ribosome has reached its stop, and then to the next codon with its completion cleared, a reset requested and every other codon unchanged; until the stop it slides right 5 scaled pixels; the menu is requested exactly at the last codon once off screen; DNA-side state never changes |
| Movers.RibosomeMovesForward | gui.go:823-845 | the ribosome only moves right and down |
| Movers.RibosomeIdle | gui.go:833-844 | any number of frames with the current codon incomplete leave the puzzle state unchanged |
| Movers.RibosomeArrives | gui.go:833-844 | a ribosome 5n pixels short of a complete codon's stop has, within n + 1 frames, moved the pointer to the next codon, incomplete, with a reset requested and no other codon changed |
| Movers.Ribosome.constructor | gui.go:815-820 | the ribosome keeps its rect |
| Movers.Ribosome.Update | gui.go:823-845 | the rect, the globals and the menu request are as RibosomeStep says |
| Session.Regenerate | main.go:262-267 | a pending reset is spent: the right tile gets the transcription of the current codon, the wrong tiles the fresh codons, nothing else changes; without one nothing changes |
| Session.TranscriptionFrameAsWritten | main.go:252-276 | a frame as written never lowers currentFrag and leaves the mRNA side alone |
| Session.TranscriptionFrame | main.go:252-276 | the corrected frame never lowers currentFrag and leaves the mRNA side alone |
| Session.TranscriptionFrameKeepsValid | main.go:252-276 | the corrected frame keeps the level's invariant (counters in range, three-base tiles, no codon at or after the current one complete), including after the last codon |
| Session.TranscriptionFrameRegenerates | main.go:252-267 | a reset requested before or during the frame is served and spent within it (right tile = transcription of the current codon, wrong tiles = fresh codons); without one the tiles keep their codons |
| Session.TranscriptionFrameAdvancesOnDrop | main.go:260-276 | currentFrag moves exactly when the right codon is released on the polymerase, and then by one, with the codon complete and the polymerase set moving |
| Session.AsWrittenNeverAdvances | main.go:270-272 | as written, no well-formed input ever advances currentFrag |
| Session.NextDnaOverrunsStrand | main.go:260 | completing the fifth codon leaves currentFrag equal to the strand length, so the next frame's `dna[currentFrag]` is out of range |
| Session.DoneFrameTouchesNoCodon | main.go:252-276 | after the last codon the corrected frame touches neither the strand nor the tiles |
| Session.TranslationFrame | main.go:278-299 | a Translation frame keeps the invariant, leaves the DNA side alone, advances mrna_ptr by at most one, and requests the menu only at the last codon |
| Session.TranslationProgressesOnDrop | main.go:278-299 | the current mRNA codon ends the frame complete, or the pointer has moved past it, exactly when it was already complete or the right tRNA (showing the current codon's transcription) was released on the ribosome |
| Session.TranscriptionScene.MoveAll | main.go:253-258 | the factor, the polymerase and the info page move as NucleusMovers says |
| Session.TranscriptionScene.RegenerateChoices | main.go:262-267 | a pending reset gives the tiles new codons and is cleared, as Regenerate says |
| Session.TranscriptionScene.PlayTile | main.go:270-276 | the right tile and the strand change as Play says |
| Session.TranscriptionScene.Update | main.go:252-276 | the objects change as TranscriptionFrame says and keep the level's invariant |

## Left out

- Rendering and asset handling are not modelled: draw methods, image loading, scaleToScreen, Scale, fonts, the window title, audio, VolButton, and Button with its ToMenu callback. A call to ToMenu is a returned `toMenu` flag.
- The scene constructors and the state machine's update are not modelled. StillImage, Transcript.update, Nucleobase.update and Receptor.animate are not modelled (the Receptor model keeps no image). Kinase.animate and TFA.animate are modelled only as the swap to the second image. updateInfo and the rna and protein arrays are not modelled either.
- Float scaling is not modelled: `widthRatio` and `heightRatio` are whole-number parameters, and a Parallax layer's depth is `int(p.layer)`.
- 64-bit wrap-around is not modelled, because the screen-sized values involved stay far below it.
- Randomness is a set of parameters: rand.Intn(4) is `roll`, and randomDNACodon and randomRNACodon are the strings `r1`..`r3`, `fresh1` and `fresh2`.
- rect_point_collision, aabb_collision and transcribe are defined outside gui.go and main.go. They are abstract helpers here. translate (also defined elsewhere) appears only in main.go lines that do not type-check; see Session.TranslationFrame.
- The `spots` table and the stop and amino-acid images are parameters.
- main.go writes `rightChoice.bases = transcribe(...)` at lines 263-265 and the same with translate at lines 286-288. These assign a string to an array and do not type-check. The Transcription lines are modelled as setting the tile's codon to the transcription.
- main.go:275 calls `nextDNACodon(g)`, but the function takes no argument. It is modelled as nextDNACodon().
- main.go:295-298 call `ribosome.update_movement()`, which is not defined. It is modelled as Ribosome.update, which itself calls nextMRNACodon.
- gui.go's `transcriptionStruct` and `translationStruct` fields (DNA, rnaPolymerase, temp_tfa, ribosome) are identified with main.go's globals `dna`, `rnaPolymerase`, `temp_tfa` and `ribosome`.
- Movers.PolymeraseStep: the write to `DNA[currentFrag]` (gui.go:639) is skipped when currentFrag is 5. The strand `dna` is `[5]Template` (main.go:53), so Go panics there; this is Finding 3, and PolymeraseStepAsWritten keeps the unguarded write.
- Session.TranslationFrame: models the intended frame, with the tRNA updated on every frame. main.go:291 has the same just-pressed guard as Finding 1. The wrong tRNAs' amino-acid relabelling is left out.
- Session.TranslationFrame: a pending reset gives the right tRNA `transcribe(curr.codon)`, not the `translate(curr.codon)` of main.go:286. That line assigns a string to the `[3]Nucleobase` field `bases` and does not type-check, and newTRNA (gui.go:784) is called at main.go:226-228 with one argument too few. The substitution follows tRNA.reset (gui.go:804-807), the one well-typed place that sets a tRNA's codon, which sets `transcribe(newBases)`; it is also the only codon the completion test at gui.go:735 accepts.
- Entities.ParallaxPos, Entities.Parallax.Update, Tiles.ChoiceStep, Tiles.LayBases, Tiles.CodonChoice.Update, Tiles.CodonChoice.LayOutBases, Tiles.TRna.Update, Tiles.CodonChoice.constructor, Tiles.TRna.constructor, Tiles.ChoiceReset, Tiles.CodonChoice.Reset, Tiles.TRna.Reset: each requires excludes only inputs on which Go panics, which the model does not represent. These are a zero depth in the four scenes that divide by it (gui.go:296-306), a codon shorter than the tile's three bases (gui.go:749), a codon longer than three (gui.go:715), a `spots` index out of range (gui.go:780, gui.go:805), and a strand index `k` outside the strand, which the callers' `dna[currentFrag]` and `mrna[mrna_ptr]` would already have rejected (main.go:260, main.go:283). The as-written members of the Findings (Session.TranscriptionFrameAsWritten, Movers.PolymeraseStepAsWritten) require the index bounds whose violation the Findings exhibit.
- Tiles.CodonChoice.constructor: the base rotation and the sprite scale factor are not modelled.
- Tiles.Glyph: the glyph images CodonChoice.update assigns (`adenine.image` etc.) are taken to be the nucleobaseImages assets.
- The `Escape` key's exit from fullscreen is not modelled. The display mode is the frame's `fullscreen` input.

## Findings

| source | as written | input that shows it | evidently intended | confidence | as-written member | corrected member |
|---|---|---|---|---|---|---|
| main.go:270-272 | `rightChoice.update(curr)` runs only on a frame whose button was just pressed, so the release branch of CodonChoice.update (gui.go:732) never runs and no codon is ever completed | any well-formed click: the press frame has justPressed and no release; the release frame has justReleased and not justPressed, so the tile is not updated | the tile is updated every frame, so a drop of the right codon on the polymerase completes it | high (not executed) | Session.AsWrittenNeverAdvances | Session.TranscriptionFrameAdvancesOnDrop |
| main.go:260 | `curr := &dna[currentFrag]` is taken on every Transcription frame, but nextDNACodon (gui.go:693-698) lets currentFrag reach 5 | completing the fifth codon (currentFrag 4): the next frame indexes `dna[5]` of a five-codon array | after the last codon there is no current codon to work on | high (not executed) | Session.NextDnaOverrunsStrand | Session.DoneFrameTouchesNoCodon |
| gui.go:639 | after the last codon `next` stays raised, the polymerase leaves the screen, and the last branch then writes `DNA[currentFrag]` with currentFrag 5 | currentFrag 5, `next` raised, polymerase at x >= screenWidth + 50: the write indexes `DNA[5]` of a five-codon array | once every codon is done the polymerase leaves without touching the strand | high (not executed) | Movers.PolymeraseOverrunsStrand | Movers.PolymeraseLeavesStrandAlone |
