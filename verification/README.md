# nextpnr-ecp5: placement, DSP packing, assembler, configuration text and JTAG, verified

This project models the parts of the repository whose correctness depends on state kept over many
calls, on rewriting, or on text and bits that someone else reads back, and proves what they promise.

- **Logic tile legality** (`LogicTile`). A tile of the ECP5 backend caches one verdict per slice and one for
  the clock and set/reset control set. `Tile` is the mutable object with its dirty bits; its invariant says
  that every clean entry equals a check from scratch, and binding, unbinding and checking keep it.
- **Routing state** (`Routing`) and its **numbering** (`TileNumbering`). Four redundant tables of bound wires
  and pips, and the dense indices they are addressed by.
- **DSP blocks** (`DspRemap`). The greedy sharing of CLK, CE and RST ports in a DSP block, with the renaming
  of the parameters that refer to ports, and the placement check that makes it succeed.
- **LUT and RAM contents** (`LutInit`, `DistRam`). Truth tables rewritten for the router's pin swaps, and a
  distributed RAM split over four LUTs and a write port.
- **Tile names** (`TileNames`) and **configuration text** (`Config`, `TextStream`, `ConfigText`, `ChipText`).
  Moving configuration to renamed tiles, and the printer and parser of the text form.
- **bba** (`BbaProgram`, `Assembler`, `AssemblerInput`, `CLiteral`). The two-pass assembler of binary blobs:
  label resolution, shared strings, both byte orders, and the output as C string literals. `BbaProgram` says
  command by command what a program means; the assembler is proved to give that, byte for byte.
- **JTAG** (`Mpsse`, `JtagDriver`). The driver's command buffers, interpreted by a model of the FTDI MPSSE
  (FTDI AN_108, sections 3.4 and 3.5) that clocks the TAP controller of IEEE Std 1149.1-2001, section 6.1.
- **Frames** (`Frames`). FASM features ORed into configuration frames and written as text.

`Basics`, `Bits` and `Digits` hold what several modules share: options, bytes, nets and parts, numbers as bit
strings, and numerals in base 10 and 16. Each pass sees its own part of a netlist cell: `LogicTile.LogicCell`
its flags and place, `DistRam.NetlistCell` its ports and parameters, `DspRemap.DspCell` ports, parameters and
location.

Objects that the program updates in place are classes here, with the same fields; algorithms that fill a
buffer or a table are methods over arrays with loops. Each is proved against a specification function or
predicate on values, and the laws are lemmas about that specification. What a text spells is stated apart from
the reader that reads it back, and what a rule or an encoding means apart from the function that computes it
(`HardwareLegal`, `Means`, `SpellsTile`, `SpellsRecord`, `SpellsFrames`, `BoardFits`). Failed assertions, exceptions and
fatal errors of the program are results (`ok` or `None`).

Three results say where the code does less than one might expect:

- The control-set scan forgets the inversions of earlier flip-flops when it meets the first LUT RAM.
  `LogicTile.ScanVersusPairwise` gives the exact missing comparison, `LogicTile.ScanMissesEarlyFF` a tile.
- Remapping DSP clocks is meant to carry a clock's divider along, but erases the divider of a clock that keeps
  its port. `DspRemap.DividerFollowsClock` says exactly when a divider follows its clock (for a clock on one
  port: when it has to move, `DspRemap.LoneDividerFollows`), `DspRemap.LostDivider` gives the smallest cell
  that loses one.
- The configuration reader keeps the blank before a comment, reads the last tile of a group twice, and the
  printer drops empty tiles. `ChipText.ChipReadsBack` states what comes back, `ChipText.RoundTripExactlyWhen`
  when that is the same chip, `ChipText.CommentGainsBlank` a chip for which it is not.

References in bba blobs count in units of four bytes (bba/main.cc:335), although bba/README.md:9-11 speaks of
byte offsets; the model follows the code.

Verify with `dafny verify dfyconfig.toml`.

## Model

| member | source | states |
|---|---|---|
| LogicTile.Tile.SlicesCompatible | ecp5/arch_place.cc:36-179 | for every reachable state of the caches: true iff one tile setting (clock, set/reset, asynchrony, inversions as the scan compares them) and one setting per slice serve every cell bound at its z-position, and every LUT may be where it is; the caches stay coherent, early exits included |
| LogicTile.LegalMeansSettings | ecp5/arch_place.cc:36-179 | the rule the scans decide, as fields of one tile setting and four slice settings that every bound cell asks for, plus the placement rules of MUX5, MUX6, M, LUT RAM and RAM write port |
| LogicTile.Tile.IsBelLocationValid | ecp5/arch_place.cc:181-199 | for a logic bel the verdict is the from-scratch one on the bound cells; elsewhere a SERDES cell is refused exactly on LFE5U-25F, LFE5U-45F and LFE5U-85F, a DSP cell exactly when its block check refuses it, anything else accepted |
| LogicTile.Tile.BindBel | ecp5/arch.h:581-599 | binds exactly one bel, records it in the cell, keeps every clean cache entry equal to its fresh check, and records for the slice of a bound LUT which pin permutations the router may use |
| LogicTile.RuleForMeans | ecp5/arch.h:589-596 | under the rule recorded for a LUT, a permuting pip is blocked iff the LUT is RAM or blocked by one, or is a carry and the pip leaves its half |
| LogicTile.Tile.UnbindBel | ecp5/arch.h:601-611 | frees exactly that bel and its cell, and keeps every clean cache entry equal to its fresh check |
| LogicTile.Tile.UpdateBel | ecp5/arch.h:565-579 | the dirty bits it sets are enough: whatever it leaves clean is still right for the new cell table |
| LogicTile.Tile.constructor | ecp5/arch.h:559-579 | the empty tile starts with coherent caches |
| LogicTile.Tile.CheckSlice | ecp5/arch_place.cc:40-114 | rechecking one slice caches its fresh verdict and touches no other slice |
| LogicTile.Tile.CheckControlSet | ecp5/arch_place.cc:115-172 | rechecking the control set caches its fresh verdict: whether one tile setting serves all cells |
| LogicTile.ScanSlice | ecp5/arch_place.cc:48-113 | the sequential scan of a slice accepts iff one slice setting serves its flip-flops and LUTs and both LUTs may be where they are |
| LogicTile.ScanControlSet | ecp5/arch_place.cc:116-172 | the sequential scan with its overwriting variables accepts exactly what the order-aware rule allows |
| LogicTile.ControlSetMeans | ecp5/arch_place.cc:115-172 | the order-aware control-set rule holds iff one tile setting serves every flip-flop and LUT RAM |
| LogicTile.ChangeIsLocal | ecp5/arch.h:565-579 | a change at one z-position can alter only the verdict of its own slice, and the control set only through a flip-flop or LUT RAM |
| LogicTile.ScanVersusPairwise | ecp5/arch_place.cc:115-175 | for every tile, all pairs agree iff the scan accepts and the comparison the scan leaves out (first LUT RAM against earlier flip-flops) holds |
| LogicTile.ScanIsPairwise | ecp5/arch_place.cc:115-175 | when a LUT RAM anywhere implies one in logic cell 0, the scan is exactly pairwise agreement |
| LogicTile.ScanMissesEarlyFF | ecp5/arch_place.cc:140-144 | a tile that passes the whole check although a flip-flop and a LUT RAM invert the clock differently |
| Routing.RoutingState.BindWire | ecp5/arch.h:717-726 | exact new tables; wire2net, pip2net, the nets and the fanout counts still agree |
| Routing.RoutingState.UnbindWire | ecp5/arch.h:727-746 | exact new tables, freeing the driving pip when there is one; all four records still agree |
| Routing.RoutingState.BindPip | ecp5/arch.h:796-811 | exact new tables; all four records still agree |
| Routing.RoutingState.UnbindPip | ecp5/arch.h:813-828 | exact new tables; all four records still agree |
| Routing.RoutingState.SetPip | ecp5/arch.h:799-803 | moving one pip keeps every fanout count equal to the number of bound pips that leave the wire |
| Routing.RoutingState.constructor | ecp5/arch.cc:147-158 | the empty state satisfies the invariant |
| Routing.OneDriver | ecp5/arch.h:796-811 | in every state that satisfies the invariant no wire has two bound driving pips |
| Routing.FanoutChanges | ecp5/arch.h:799 | binding or freeing a pip changes the number of bound pips that leave its source wire by one, and no other |
| TileNumbering.TileIterator.Next | ecp5/arch.h:194-203 | always terminates on the next item or the end, skipping empty tiles, with exactly one more item before it |
| TileNumbering.TileIterator.SamePosition | ecp5/arch.h:211-219 | two iterators compare equal iff as many items precede them |
| TileNumbering.WholeChip | ecp5/arch.h:648-659 | the range over the chip starts before the first item and ends behind the last, empty first tiles included |
| TileNumbering.WholeWalk | ecp5/arch.h:648-659 | the walk meets every (tile, index) exactly once, in the order of the ranks |
| TileNumbering.OneTile | ecp5/arch.cc:260-275 | the range of one tile starts at its first bel and ends behind its last, also before empty tiles and at the last tile |
| TileNumbering.BelsOfTile | ecp5/arch.cc:260-275 | getBelsByTile yields exactly that tile's bels, in order |
| TileNumbering.RankOrders | ecp5/arch.cc:139-146 | ranks order items by tile, then index, hence are distinct |
| TileNumbering.NumberItems | ecp5/arch.cc:139-158 | the counting loop leaves at each non-empty tile the number of items before it and returns the total |
| TileNumbering.VecIdxIsRank | ecp5/arch.h:708-715 | the flat index of an item is its place in the walk |
| TileNumbering.NumberingInjective | ecp5/arch.h:708-715 | flat indices are below the total and equal only for the same item |
| TileNumbering.NumberingSurjective | ecp5/arch.h:787-794 | every number below the total is the flat index of an item on the chip |
| TileNumbering.LocationRoundTrip | ecp5/arch.h:221-228 | tile number to location and back |
| DspRemap.AssignSlots | ecp5/arch_place.cc:334-375 | all four ports: succeeds iff the greedy allocation does, and the remap table says where each port's net went |
| DspRemap.KeepsPortIff | ecp5/arch_place.cc:336-375 | the condition that a port keeps its net, read off the ports and slots before the call, is exactly when the greedy search leaves the net there |
| DspRemap.PortNames | ecp5/arch_place.cc:207-209 | the twelve port names as texts |
| DspRemap.NamesAreUnique | ecp5/arch_place.cc:392-398 | a property names a port iff it is that port's name, so at most one rename applies |
| DspRemap.RenameOne | ecp5/arch_place.cc:392-398 | the loop with its break is one simultaneous renaming, never chained |
| DspRemap.RenameParams | ecp5/arch_place.cc:386-399 | every register parameter is renamed once, all others are untouched |
| DspRemap.RewiringKeepsMeaning | ecp5/arch_place.cc:313-399 | after the pass over one class the cell's nets are still on its ports and every register parameter that named a connected port names one carrying the same net |
| DspRemap.MeaningComposes | ecp5/arch_place.cc:276-289 | passes over several classes together keep the meaning |
| DspRemap.RemapDspCell | ecp5/arch_place.cc:313-426 | fails iff the slots run out; otherwise the slots grow distinctly and the cell is rewired to them |
| DspRemap.MoveDividers | ecp5/arch_place.cc:401-425 | what happens to the clock dividers: port j gets the divider of the last moved port that arrived there, every other divider is erased |
| DspRemap.DividerAt | ecp5/arch_place.cc:401-425 | on the ports and slots before the call: clock port j has a divider afterwards iff it carries a net that some port had to give up together with a divider, and it is the divider of the last such port |
| DspRemap.DividerFollowsClock | ecp5/arch_place.cc:401-425 | the divider of a connected clock port is found at the port its clock went to iff a port carrying that net moves and brings the same divider and no later one brings any |
| DspRemap.LoneDividerFollows | ecp5/arch_place.cc:401-425 | when no other clock port carries the net, the divider follows its clock iff the clock has to change ports |
| DspRemap.LostDivider | ecp5/arch_place.cc:401-425 | for every net and divider: the first cell of a block, with that one clock, keeps its clock port and loses the divider |
| DspRemap.RemappedAligned | ecp5/arch_place.cc:276-289 | within a block no two cells have different nets on the same port of the class, the other classes are untouched, and the block used at most four nets |
| DspRemap.RemappedSameNets | ecp5/arch_place.cc:313-399 | a block has the same nets of a class after the pass as before |
| DspRemap.TooManyNets | ecp5/arch_place.cc:341-362 | the slots run out only when the block uses more than four nets of the class |
| DspRemap.RemapClass | ecp5/arch_place.cc:276-288 | one class over a whole block: succeeds iff at most four nets, and then aligned with nothing lost |
| DspRemap.RemapBlock | ecp5/arch_place.cc:276-289 | one block: succeeds iff it fits, and then every class is aligned and every cell keeps its meaning |
| DspRemap.CellsAroundAre | ecp5/arch_place.cc:220-222 | the cells looked at are exactly those bound in the block at z 0, 1, 3, 4, 5 and 7 |
| DspRemap.IsDspLocationValid | ecp5/arch_place.cc:203-249 | legal iff the cells bound in the block together use at most four nets of each class; the fatal error iff, up to some z, only locked cells are bound and they already use more |
| DspRemap.CheckedPlacementRemaps | ecp5/arch_place.cc:203-291 | the placement check accepts every DSP cell iff every block fits: on a checked placement the pass never runs out of ports, and on no other does it succeed |
| DspRemap.RemapDspBlocks | ecp5/arch_place.cc:254-291 | succeeds iff the cells bound in every block with a DSP cell use at most four nets of each class; then no two bound cells of such a block differ on a port, the block has the nets it had, every cell keeps its meaning, and cells elsewhere are untouched |
| LutInit.PermuteLut | ecp5/bitstream.cc:530-577 | for every number of inputs, the rewritten table read at any physical vector is the original read at the logical vector the bound pips induce; for a routed LUT, at the pins the flag words name; and exactly the used physical pins are reported |
| LutInit.FlagWord | ecp5/arch.h:65-68 | the word 0x4000 + 16 lut + 4 o + j marks a permuting pip to logical pin o from physical pin j, for all eight LUTs and four pins |
| LutInit.RuleMeans | ecp5/arch.h:829-848 | on these words: what each rule blocks; carry lets A swap with B and C with D only |
| LutInit.RoutedLut | ecp5/bitstream.cc:534-577 | a four-pin LUT whose pins are each driven by one bound pip: logical input i is the physical pin its flag word names |
| LutInit.PhysToLog | ecp5/bitstream.cc:534-549 | logical pin i is listed under physical pin j iff a bound pip leads from j to i |
| LutInit.AddCarryDummies | ecp5/bitstream.cc:553-563 | in carry mode an unused physical pin stands for exactly the unbound logical pins of its half |
| LutInit.RoutedPinSeesSource | ecp5/bitstream.cc:534-549 | with one driver a pin, a routed logical pin sees the physical pin its pip starts at |
| LutInit.UnroutedPinReadsZero | ecp5/bitstream.cc:564-572 | outside carry mode an unrouted logical pin reads 0 |
| LutInit.UnroutedCarryPinReadsOne | ecp5/bitstream.cc:553-563 | in carry mode, with unused physical pins tied to 1, an unrouted logical pin reads 1 |
| LutInit.HalvesStayApart | ecp5/bitstream.cc:553-572 | pins routed under the carry rule: each logical input depends on its own half only |
| LutInit.UnusedPinInHalf | ecp5/arch.h:840-845 | a half with an unrouted logical pin has an unused physical pin |
| LutInit.FeedsWithinHalf | ecp5/arch.h:829-848 | a pip the carry rule does not block stays within its half |
| DistRam.GetDramInit | ecp5/cells.cc:174-189 | column k of the contents as a number, bit by bit; fails iff the text is not 64 characters or that column has one other than 0, 1, x |
| DistRam.PermuteInit | ecp5/cells.cc:254-267 | the permuted table holds at entry i the bit of the permuted address |
| DistRam.TableIs | ecp5/cells.cc:251-269 | the two steps together: entry ABCD of COMB k holds column k at address DBCA |
| DistRam.DramToRamwSplit | ecp5/cells.cc:199-212 | every write address and data net is moved to the RAMW input whose output repeats it |
| DistRam.DramToComb | ecp5/cells.cc:245-297 | COMB k reads from the RAM's read nets, drives its data output, is written from the RAMW outputs, and takes over the attributes, the mode and the two inversion parameters with their defaults; fails iff its column of contents is illegal |
| DistRam.ModeIs | ecp5/cells.cc:249-251 | a COMB is in mode DPRAM and takes WREMUX and WCKMUX from the same parameter of the RAM, or WRE and WCK |
| DistRam.PackDram | ecp5/pack.cc:788-824 | all four COMBs and the RAMW together; succeeds iff the contents are legal, makes one distinct net per RAMW output, gives every COMB the RAM's attributes and mode parameters, and leaves the RAM unconnected |
| DistRam.ReadsTheRam | ecp5/cells.cc:245-280 | for any values on the nets, COMB k returns character 4 * address + k of the contents |
| DistRam.BlankRamReadsZero | ecp5/cells.cc:174-189 | a RAM without initial contents reads 0 everywhere |
| DistRam.WritesTheRam | ecp5/cells.cc:199-212 | when RAMW outputs repeat their inputs, every COMB sees the RAM's write address and COMB k its data bit k |
| DistRam.Context.ConnectPorts | common/kernel/nextpnr_types.cc:89-98 | a missing net is made once, and then shared |
| DistRam.NetlistCell.MovePortTo | common/kernel/nextpnr_types.cc:100-133 | the net changes cells and nothing else changes; a missing port moves nothing |
| TileNames.TargetStays | ecp5/bitstream.cc:449-466 | a renamed tile name is not renamed again: sources and targets are disjoint |
| TileNames.CibName | ecp5/bitstream.cc:451-458 | before the first CIB_DCU a V is put in unless there is one; a name that starts with it throws |
| TileNames.SuffixNames | ecp5/bitstream.cc:459-465 | otherwise a final BMID_0H becomes BMID_0V and a final BMID_2 becomes BMID_2V |
| TileNames.OtherNames | ecp5/bitstream.cc:449-466 | all other names stay |
| TileNames.RenameInjective | ecp5/bitstream.cc:449-466 | different names are renamed to different names |
| TileNames.ChipConfig.TileTypeXform | ecp5/bitstream.cc:448-466 | collects exactly the renames that apply; fails iff a name starts with CIB_DCU |
| TileNames.ChipConfig.MoveOne | ecp5/bitstream.cc:469-478 | one tile's items are appended to its target, which is made only if there are any, and the tile is erased |
| TileNames.MoveConserves | ecp5/bitstream.cc:468-479 | one move keeps the multiset of (final tile name, item) |
| TileNames.FixedIsUnique | ecp5/bitstream.cc:467-479 | the outcome does not depend on the order of the moves |
| TileNames.SecondRunChangesNothing | ecp5/bitstream.cc:443-488 | where the pass has run, running it again changes nothing |
| TileNames.ChipConfig.RenameGroups | ecp5/bitstream.cc:480-487 | every name in every tile group is renamed by the two suffix rules |
| TileNames.GroupNamesFollow | ecp5/bitstream.cc:480-487 | groups follow the tiles exactly unless a rule would apply to a name with CIB_DCU, where groups are left behind |
| TileNames.ChipConfig.MoveAll | ecp5/bitstream.cc:467-479 | all renames, in any order: the fixed configuration, with every item kept once |
| TileNames.ChipConfig.FixTileNames | ecp5/bitstream.cc:443-488 | on the four LFE5U parts every arc, enum, word and unknown ends up exactly once under its tile's final name; a name that throws leaves everything as it was; other parts are left alone |
| Assembler.LabelPass | bba/main.cc:280-311 | first pass: accepts iff every token is aligned, and leaves each label at the position of its last definition |
| Assembler.EmitPass | bba/main.cc:318-394 | second pass: accepts iff references and targets are 4-aligned, and fills the buffer exactly |
| Assembler.WriteBigEndian | bba/main.cc:355-373 | the fall-through switch writes exactly the n big-endian bytes |
| Assembler.WriteLittleEndian | bba/main.cc:374-394 | the fall-through switch writes exactly the n little-endian bytes |
| Assembler.EmittedAt | bba/main.cc:318-394 | every token's bytes stand at the cursor the first pass gave it |
| Assembler.LastDefinition | bba/main.cc:283-288 | a label's position is that of a definition no later token redefines |
| Assembler.Int32RoundTrip | bba/main.cc:335 | four bytes in either order read back as the signed number iff it fits 32 bits |
| Assembler.ReferenceResolves | bba/main.cc:332-337 | the four bytes at any reference, read in either byte order, times 4, plus its position, give the position of the label's last definition, exactly when the distance in words fits 32 signed bits |
| Assembler.UndefinedLabelRejected | bba/main.cc:333 | a reference to an undefined label is always rejected |
| Assembler.SelfReference | bba/main.cc:280-337 | a label and a reference to it are an accepted program |
| AssemblerInput.Reader.Execute | bba/main.cc:146-264 | each command changes the global tables and the pre and post text as the step function says, and fails where an assertion or exception does |
| AssemblerInput.Reader.StoreString | bba/main.cc:239-259 | a string is stored letter by letter with its end mark |
| AssemblerInput.ReadAll | bba/main.cc:146-264 | the whole input |
| AssemblerInput.RunShows | bba/main.cc:146-278 | the reading loop succeeds iff nothing is written or popped without a stream, and then the streams hold, by name and in order, what the commands leave in them |
| AssemblerInput.LegalMeans | bba/main.cc:280-337 | the assertions of both passes hold iff every item is well placed: numbers aligned, references at multiples of four to defined labels at multiples of four, labels aligned under offset32 |
| AssemblerInput.BlobMeans | bba/main.cc:313-394 | what both passes write is, for every item, the number modulo its width, the distance to the last definition in units of four bytes, or zero padding |
| BbaProgram.MeaningIsUnique | bba/main.cc:313-394 | only one blob is what a program says: no byte is left open |
| BbaProgram.RefCommand | bba/main.cc:181-196 | for every ref command of an accepted program: its four bytes, decoded in either byte order, times 4, plus their position, lead to what the last label command of that name left (or a string stored under it), iff the distance fits 32 signed bits |
| BbaProgram.StrCommand | bba/main.cc:218-278 | for every str command: the same, and there its string stands with its closing 0, 4-aligned, however often it occurs and whatever labels are called |
| BbaProgram.NumberCommand | bba/main.cc:198-207 | for every u8, u16 and u32 command: its 1, 2 or 4 bytes, decoded in either byte order, are the number modulo 2^8, 2^16 or 2^32 |
| BbaProgram.PlaceHolds | bba/main.cc:181-278 | each command that writes has its place in the blob, behind the streams pushed before its own and what was in its own |
| BbaProgram.PlacesApart | bba/main.cc:181-278 | different commands have different places |
| BbaProgram.PlaceTaken | bba/main.cc:181-278 | everything before the strings is the place of some command |
| BbaProgram.StringDefinition | bba/main.cc:239-259 | the last definition of a string's label is a stored copy of the string, even where a label command defines it too |
| BbaProgram.SmallestProgram | bba/main.cc:146-337 | a stream with a label and a reference to it is accepted, whatever the names |
| AssemblerInput.Assemble | bba/main.cc:146-443 | the whole assembler: accepts exactly the programs whose items are well placed, whose references are defined and whose stack is never short and ends empty, and returns a blob that is what the commands say, item by item |
| CLiteral.Print | bba/main.cc:447-475 | the printing loop with its column count writes text that a C compiler reads as exactly the data |
| CLiteral.BodyStart | bba/main.cc:462-465 | what follows a byte that is not a digit never starts with an octal digit, so a short escape absorbs nothing |
| CLiteral.EscapeReadsBack | bba/main.cc:461-475 | every byte's text is read back as the byte |
| CLiteral.RoundTrip | bba/main.cc:447-478 | for every byte sequence the printed literals are read as exactly those bytes |
| Mpsse.FiveOnesReset | Nathan_Serv/ftdi-jtag.js:116 | from any of the sixteen states five TMS ones reach Test-Logic-Reset |
| Mpsse.ResetIdles | Nathan_Serv/ftdi-jtag.js:116 | five ones and a zero reach Run-Test/Idle with TMS low from any state, with one reset event when started there |
| Mpsse.HoldingStates | Nathan_Serv/ftdi-jtag.js:84-95 | with TMS low exactly five states hold, with TMS high only Test-Logic-Reset |
| Mpsse.ColumnsAlike | Nathan_Serv/ftdi-jtag.js:53-61 | the instruction column of the controller mirrors the data column |
| Mpsse.EnterShiftIR | Nathan_Serv/ftdi-jtag.js:58 | TMS 1100 from Run-Test/Idle captures and enters Shift-IR |
| Mpsse.EnterShiftDR | Nathan_Serv/ftdi-jtag.js:76 | TMS 100 from Run-Test/Idle captures and enters Shift-DR |
| Mpsse.LeaveShift | Nathan_Serv/ftdi-jtag.js:60 | TMS 110 takes in one last bit, updates once and ends in Run-Test/Idle |
| Mpsse.ShiftIn | Nathan_Serv/ftdi-jtag.js:84-95 | with TMS low in a shift state every bit is taken in, in order, and nothing else changes |
| Mpsse.Idling | Nathan_Serv/ftdi-jtag.js:177-181 | with TMS low in Run-Test/Idle every data bit is one idle clock |
| Mpsse.ReadOut | Nathan_Serv/ftdi-jtag.js:123 | what is read while shifting is what the register captured, in order |
| JtagDriver.BuildRevLut | Nathan_Serv/ftdi-jtag.js:7-11 | every entry of the table is its index with the bits reversed |
| JtagDriver.ReversedBytesAreMsbFirst | Nathan_Serv/ftdi-jtag.js:153-154 | reversed bytes sent least significant bit first are the bytes most significant bit first |
| JtagDriver.ChunksShift | Nathan_Serv/ftdi-jtag.js:82-95 | the chunks shift in exactly the payload's bits, in order, whatever follows |
| JtagDriver.BulkLoads | Nathan_Serv/ftdi-jtag.js:63-103 | the buffer loads exactly 8 * length bits, in order, the last on the exit edge, and ends in Run-Test/Idle |
| JtagDriver.BuildBulk | Nathan_Serv/ftdi-jtag.js:63-100 | the size worked out in advance is exact; an empty payload overruns the buffer |
| JtagDriver.WebUsbJtag.ShiftTms | Nathan_Serv/ftdi-jtag.js:53-55 | clocks exactly the given TMS bits |
| JtagDriver.WebUsbJtag.ShiftIr | Nathan_Serv/ftdi-jtag.js:57-61 | exactly len instruction bits, least significant first, one Update-IR, back in Run-Test/Idle |
| JtagDriver.WebUsbJtag.ShiftDrBulk | Nathan_Serv/ftdi-jtag.js:63-103 | non-empty payloads are loaded bit by bit; an empty one fails and sends nothing |
| JtagDriver.WebUsbJtag.ReadIdcode | Nathan_Serv/ftdi-jtag.js:115-126 | from any state: the 32-bit number the IDCODE register captured, least significant bit first |
| JtagDriver.WebUsbJtag.ReadStatus | Nathan_Serv/ftdi-jtag.js:128-150 | the packets go out most significant bit first, and bit k of the result is bit 31 - k of what CFG_OUT captured |
| JtagDriver.WebUsbJtag.ProgramXc7 | Nathan_Serv/ftdi-jtag.js:151-190 | from any state: the instructions, the bitstream most significant bit first, 2048 idle clocks and the status read, in that order; done is captured bit 17; an empty bitstream stops after CFG_IN |
| JtagDriver.WebUsbJtag.ReadRegister | Nathan_Serv/ftdi-jtag.js:119-125 | the four bytes captured, read while 33 zeros are shifted in |
| JtagDriver.DoneBit | Nathan_Serv/ftdi-jtag.js:185 | bit 14 of the status is the 18th captured bit |
| JtagDriver.ReadData | Nathan_Serv/ftdi-jtag.js:192-209 | the first len payload bytes, however they were cut into transfers and packets |
| JtagDriver.CallStaysIdle | Nathan_Serv/ftdi-jtag.js:57-190 | every call that starts in Run-Test/Idle with TMS low ends there and shows the chain exactly its events |
| JtagDriver.Session | Nathan_Serv/ftdi-jtag.js:57-190 | after a reset from any state, any list of calls: idle between calls, and the chain sees the events of each call in order and nothing else |
| JtagDriver.InstructionBits | Nathan_Serv/ftdi-jtag.js:115-190 | the six instructions bit by bit, as the chain takes them in |
| JtagDriver.StatusBits | Nathan_Serv/ftdi-jtag.js:130-138 | the five words of the status request bit by bit, most significant first |
| Frames.BitIsSpot | Nathan_Serv/fasm2frames.js:73-84 | a bit of the image is set iff some feature maps to it |
| Frames.SpotAsked | Nathan_Serv/fasm2frames.js:73-84 | a bit is asked for iff some line has a feature with a coordinate in a block with base address: base plus column, word, bit modulo 32 |
| Frames.FrameData.Or | Nathan_Serv/fasm2frames.js:78-82 | one coordinate adds exactly its spot; a new frame starts blank |
| Frames.FrameData.AddFeature | Nathan_Serv/fasm2frames.js:73-84 | one feature adds exactly its spots, skipping blocks without base address |
| Frames.SortKeys | Nathan_Serv/fasm2frames.js:88 | the addresses, strictly increasing, none lost |
| Frames.FrameData.ToText | Nathan_Serv/fasm2frames.js:87-96 | the text is the canonical one of the set of spots |
| Frames.Convert | Nathan_Serv/fasm2frames.js:9-96 | the whole conversion over lines, whatever the database says of each: one line for every frame with a bit, ascending, an address of eight digits and 101 words of eight, each the number whose bits are asked for |
| Frames.OrderDoesNotMatter | Nathan_Serv/fasm2frames.js:9-96 | reordering or repeating input lines leaves the text unchanged |
| Frames.TextReadsBack | Nathan_Serv/fasm2frames.js:89-96 | the text is read back as the frames and words it was made from |
| Frames.TextTellsSpots | Nathan_Serv/fasm2frames.js:87-96 | equal texts mean equal frames and equal bits: the text loses nothing |
| TextStream.Input.DoSkipBlank | ecp5/config.cc:87-94 | skips exactly the leading blanks |
| TextStream.Input.SkipCheckEol | ecp5/config.cc:96-113 | tells the end of a line or a comment, and where the stream then stands |
| TextStream.Input.SkipAll | ecp5/config.cc:116-124 | skips exactly the blank lines and comments |
| TextStream.Input.SkipCheckEor | ecp5/config.cc:127-132 | tells whether a record ends here |
| TextStream.Input.SkipCheckEof | ecp5/config.cc:135-140 | tells whether the text ends here |
| TextStream.TokenReads | ecp5/config.cc:148-153 | a token is read whole, up to the white space behind it |
| TextStream.NumberReads | ecp5/config.cc:341-352 | a number is read back in the base it was written in, padded or not |
| ConfigText.BitsReadBack | ecp5/config.cc:30-48 | a bit vector is read back |
| ConfigText.BitsSpell | ecp5/config.cc:30-36 | the text of a word, read as a base-2 numeral with the first digit most significant, is the number of its bits |
| ConfigText.ReadsWhatIsSpelled | ecp5/config.cc:38-50 | a word is read from a text iff the text spells it in base 2 |
| ConfigText.UnknownReadsBack | ecp5/config.cc:57-84 | a bit position is read back from its name |
| ConfigText.ItemReads | ecp5/config.cc:211-240 | a line adds exactly its item, whatever follows |
| ConfigText.TileReads | ecp5/config.cc:198-240 | a tile is read back up to the next record |
| ConfigText.TileSpells | ecp5/config.cc:142-209 | the text of a tile is exactly one line for each arc, word, enum and unknown bit, in that order, words in base 2 and coordinates in base 10 |
| ConfigText.FromStringInverts | ecp5/config.cc:250-263 | from_string inverts to_string on every valid tile |
| ConfigText.PrintTile | ecp5/config.cc:198-209 | the four loops write the tile's lines: what each line spells is stated without the reader |
| ConfigText.GetItem | ecp5/config.cc:216-235 | one line of each kind; fails on other words and malformed values |
| ConfigText.GetTile | ecp5/config.cc:211-240 | the reading loop |
| ChipText.RecordReads | ecp5/config.cc:307-355 | a record is applied whatever precedes it, and reading goes on at the next |
| ChipText.CommentLineIgnored | ecp5/config.cc:96-124 | a comment line between records changes nothing that is read |
| ChipText.RecordSpells | ecp5/config.cc:267-305 | what the text of each kind of record spells, stated without the reader: verbs, names, decimal indices, three-digit hexadecimal words, eight a line |
| ChipText.BramReads | ecp5/config.cc:341-352 | memory words are read back in order, across line ends |
| ChipText.NamesRead | ecp5/config.cc:328-338 | the names of a group are read in order, and the last one once more |
| ChipText.ChipReadsBack | ecp5/config.cc:267-355 | for every valid chip and every order of its maps the printed text is read back as the expected chip |
| ChipText.RoundTripExactlyWhen | ecp5/config.cc:267-355 | the expected chip is the chip itself iff it has no comments, tile groups, empty tiles or empty memories |
| ChipText.CommentGainsBlank | ecp5/config.cc:309-320 | for every comment line: a valid chip whose printed text is read back as a different chip |
| ChipText.PrintChip | ecp5/config.cc:267-305 | the printer, for any order of the maps: record after record, each spelled as its kind asks |
| ChipText.PrintBram | ecp5/config.cc:284-297 | the eight-words-a-line loop |
| ChipText.GetRecord | ecp5/config.cc:309-353 | one record behind its verb |
| ChipText.GetBram | ecp5/config.cc:341-352 | the memory loop |
| ChipText.GetNames | ecp5/config.cc:332-338 | the name loop with its failing last read |
| ChipText.GetChip | ecp5/config.cc:307-355 | the reading loop |

## Left out

- LogicTile.Tile.IsBelLocationValid: the verdict on the block of a DSP cell is a parameter here; `DspRemap.IsDspLocationValid` computes it from the cells around.
- LogicTile.Tile.BindBel: the user-interface refresh is left out.
- LogicTile: the bits of the two flag bytes are sets of enumerators, so unused bits of a byte are not represented.
- Routing: wires and pips are named by their flat indices (the bijection is proved in `TileNumbering`); `getPipSrcWire` and `getPipDstWire` are the two index tables `src` and `dst`, taken from the chip database as given.
- TileNumbering: the 16- and 32-bit widths of locations, indices and counters; the chip database is taken to have width * height tiles.
- DspRemap: user lists and drivers of nets, log messages, and the names of the 48 register parameters (entry k is `RegParam(k)`).
- DspRemap.IsDspLocationValid: the text of the fatal error is left out, and so is the chip database behind the six bel positions, which is taken to name a bel at each.
- LutInit: where the flags of a pip come from in the chip database; the source has K = 4 inputs, the model any number.
- LutInit.UnroutedCarryPinReadsOne: that the hardware reads the tied-off pins as 1 is the meaning given to the tie-off setting of bitstream.cc:781-785.
- DistRam.GetDramInit: initial contents given as a string instead of bits, which fail an assertion, are not represented.
- DistRam.PackDram: the placement constraints of the cells, the cells that block unused LUTs, and the removal of the packed cell from the netlist.
- DistRam.Context.ConnectPorts: the user list and driver of a net; a net is known by the ports that hold it.
- DistRam.NetlistCell.MovePortTo: the user index and the driver recorded in the net are not represented.
- DistRam.WritesTheRam: that a RAMW output repeats its input is the pass-through of arch.cc:829-838, taken as a premise on the values of nets.
- Assembler: 64-bit overflow of the cursor; a blob is taken to fit in memory.
- AssemblerInput.ReadAll: splitting input lines into commands (blanks, comments, quoting, the 512-byte line buffer); the list of commands is the input.
- AssemblerInput.Assemble: opening and writing files, debug and verbose printing, and the #embed output; the result is the blob.
- CLiteral: hexadecimal and universal escapes in the reader of C literals, which the printer never writes.
- Mpsse: MPSSE commands the driver does not send, clock divisors and pin set-up; the chain is one device, and what its registers capture is a table given from outside.
- JtagDriver: opening the device, USB control transfers, timeouts and the wait of 100 ms, telemetry and console output; USB delivery is a function that cuts a reply into transfers.
- JtagDriver.WebUsbJtag.Flush: the read loop ends because the device stops sending; here it drops what is pending.
- JtagDriver.LittleEndian: `|` of shifted bytes is written as a sum, which is the same on disjoint bits; results are unbounded numbers below 2^32.
- TileNames: `total_known_bits`, which nothing in the modelled code sets, and the order in which std::map is walked, which `TileNames.FixedIsUnique` shows not to matter.
- Frames.Convert: what the database makes of a line on its own (tile types, peeling prefixes, padding indices, bit-vector values) is a function given from outside; progress counts are left out.
- TextStream.ReadNumber: signs and the 0x prefix that the C++ library would also accept; a failed stream is one with nothing left to read.
- ChipText: std::map prints its keys in sorted order, the model in any order; comment and record verbs are those of the reader.
- Placers, routers, packing apart from distributed RAM, timing tables, delay estimates, graphics, Python bindings, option parsing, the LPF reader, the base configuration tables and the FASM database are not part of this model: they are data tables, long case lists, input and output, or code these results do not rest on.
