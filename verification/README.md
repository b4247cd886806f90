# Verified models of SYN-OS

Dafny models of the parts of SYN-OS where the most has to hold at once, with proofs of what
they promise over every input, every run and every pattern of failures. `dafny verify
dfyconfig.toml` verifies everything. Each module follows the files its rows below cite; methods
keep the code's own loops and in-place state and are proved against specification functions,
and the lemmas are about those functions.

**Encrypted volumes** (`Dislocker`, `DislockerFlat`). A mounted BitLocker volume of version 2
("Seven") is asked for bytes and holds encrypted sectors. Requests are widened to sectors,
decrypted, patched and encrypted again; the first sectors live in a backup area, so writes to
them are redirected, or split in two by one recursive call. What the volume's reader sees after
a write is proved to be one function of what it saw before, and exactly when that function is
the write of a plain array. It is not always: metadata regions, the backup area among them,
read as zeros (`sectors.c:340-349`), and the read-modify-write of `dislocker.c:621-647` reads
the redirected sectors through that same path. A write into the head that does not cover whole
sectors therefore blanks the rest of the sectors it touches, and a direct write whose window
counts one sector more than it needs rewrites that sector as encrypted zeros when it is the
first of a region. `FlatExactlyWhenClean` gives the exact condition.

**The build's log** (`Terminal`, `PtyStream`, `BuildLog`, `Ring`). A read loop turns a pseudo
terminal's bytes into lines, across any chunking, and a ring of 2000 slots with one line still
being redrawn shows the last of them. The comment at `syn_build_runner.c:255-258` says the
strip of escape sequences stops at the text's end either way; the loop's own step carries it
past the terminator when a text ends inside a sequence, so the model gives the strip the memory
behind the text and proves it depends on the text alone exactly when no sequence is left open.

**The acoustic monitor's line** (`Words`, `HumLine`, `HumText`, `HumVoice`, `HumWire`). Two programs share
one line of `key=value` words: one prints it with `snprintf` into a fixed buffer, the other
splits it and converts it back. Reading what was printed gives it all back exactly when no crew
member's id holds a colon or a comma, which nothing upstream excludes.

**The acoustic monitor's voice**: steppers with hysteresis from signals to levels (`Stepper`, `HumMap`);
a grid of events that re-arms a groove without a gap (`Events`, `Groove`, `Rhythm`); a phone
call over G.711 mu-law with lost, late and repeated packets (`Ulaw`, `PhoneLine`); a room of
tape wobble, echo and reverb in ring buffers (`Comb`, `Reverb`, `Room`, `Impulse`); the duck, ceiling and
limit at the end (`Limiter`); the list of what has been heard (`HeardList`).

**The room's rest** (`Envelope`, `Rates`, `Resting`, `SteadyEcho`, `TechnoRest`, `StaleTape`). The
comment at `syn_bar_hum.c:1789-1791` says that six seconds after the last sound went in all of the
room has died away below hearing. While it is quiet the echo still feeds the combs, and what counts
as quiet goes up to a millionth, so this is proved of the whole room: every part falls under an
envelope, over a floor that the inaudible input alone keeps up. In every style's room the envelope
is 75 dB down after six seconds, with two exceptions that the code allows. Techno's ticks raise its
echo's feedback while tasks wait on IO. For each of the sixteen steps of waiting there is a level
that the loudest echo at that step keeps through the six seconds; `TechnoRestsExactly` proves that
every run from a new room, ticks and all, rests within the level of a chosen step if and only if
waiting never passes that step. At step 3 the level is under a sixteen-thousandth of the sound; at
step 15 a run is given that leaves over a hundredth of it in every cell of the echo, at most 38 dB
down and frozen there. The other exception is the tape: when it stops and starts again it plays what it last
recorded, however long ago (`StartsAgain`), so that in uplink's room it can sound at nine tenths of
full level into silence that has lasted just under six seconds (`StaleTapeSounds`); `QuietExactly`
says when what leaves it is inaudible.

`real` stands for the code's floating point. Powers, exponentials, sines and random draws are
parameters or arbitrary values under the few facts used (a gain at power -3/4 of a level, a rate
between 0 and 1, a sine within 1). Memory, disk and clock failures are parameters (`Grant`,
`due`).

## Model

| member | source | states |
|---|---|---|
| Dislocker.IsOverwritten | SYN-SOFTWARE/dislocker-src/src/metadata/metadata.c:1188-1224 | the answer is yes exactly when some byte of the request lies in a region |
| Dislocker.WindowArithmetic | SYN-SOFTWARE/dislocker-src/src/dislocker.c:363-371 | for every offset, size and sector size the counted sectors cover the request, all but at most one of them are needed, the extra one occurs exactly when the request starts inside a sector and its remainders do not fill it, and the allocated buffer holds both the sectors and the copied range |
| Dislocker.Window | SYN-SOFTWARE/dislocker-src/src/dislocker.c:585-609 | first sector, count, bytes to skip and bytes to allocate, with the copied range inside the sectors and the sectors inside the buffer |
| Dislocker.Context.DecryptSector | SYN-SOFTWARE/dislocker-src/src/inouts/sectors.c:338-410 | a sector of a metadata region, or past the disk, reads as zeros; one of the volume's first sectors is read from the backup area and decrypted for that place; any other where it is |
| Dislocker.Context.DecryptRegion | SYN-SOFTWARE/dislocker-src/src/inouts/sectors.c:101-197 | fills the buffer with exactly the logical bytes from the first sector on, or fails and says so |
| Dislocker.Context.EncryptRegion | SYN-SOFTWARE/dislocker-src/src/inouts/sectors.c:212-289 | every sector of the window is the buffer's piece encrypted for its place, every other sector is untouched, and a failure changes nothing |
| Dislocker.Context.Dislock | SYN-SOFTWARE/dislocker-src/src/dislocker.c:279-428 | every outcome in order of its checks, and on success the caller's buffer holds exactly the logical bytes asked for and keeps the rest |
| Dislocker.Context.WriteThrough | SYN-SOFTWARE/dislocker-src/src/dislocker.c:585-658 | one read-modify-write pass: the disk becomes the specified rewrite, or is unchanged on any failure |
| Dislocker.Context.Enlock | SYN-SOFTWARE/dislocker-src/src/dislocker.c:433-669 | every outcome in order of its checks, and the disk for each: a context that is incomplete, unsafe or read-only never changes, nor does a refused request; of an accepted one all bytes that fit the volume are stored when its pass succeeds, the head alone exactly when the request splits and only the head's pass succeeds, nothing otherwise; the recursion is at most one deep |
| DislockerFlat.HoverByte | SYN-SOFTWARE/dislocker-src/src/inouts/sectors.c:340-349 | with regions on sector edges, a sector reads as zeros if and only if any one of its bytes is in a region |
| DislockerFlat.ByteRead | SYN-SOFTWARE/dislocker-src/src/inouts/sectors.c:338-410 | every byte a reader sees: zero in a region, the head's from the backup area, any other from where it is, decrypted for its place |
| DislockerFlat.PassView | SYN-SOFTWARE/dislocker-src/src/dislocker.c:621-655 | what a reader sees after one pass: the new bytes where they were written, zeros in head bytes whose backup sector was read as zeros, everything else as before |
| DislockerFlat.StoredView | SYN-SOFTWARE/dislocker-src/src/dislocker.c:523-669 | the same for a whole request, redirected, direct or split |
| DislockerFlat.CleanIsFlat | SYN-SOFTWARE/dislocker-src/src/dislocker.c:523-669 | a request whose head part covers whole sectors, and whose spare sector is not the backup area's first, changes the view exactly as a plain array is written |
| DislockerFlat.FlatExactlyWhenClean | SYN-SOFTWARE/dislocker-src/src/dislocker.c:523-560 | a request is a plain array write on every disk if and only if it is clean: the exact condition, since partial writes into the head blank what they read as zeros |
| DislockerFlat.ReachedAccepts | SYN-SOFTWARE/dislocker-src/src/dislocker.c:496-516 | the bytes of a request that reach the disk lie in the volume and clear of all regions, clipped and halved requests included |
| DislockerFlat.BlankedByte | SYN-SOFTWARE/dislocker-src/src/inouts/sectors.c:340-349 | every request that is not clean has a byte of the head it does not write and yet blanks |
| DislockerFlat.OneByteBlanksTheBootSector | SYN-SOFTWARE/dislocker-src/src/dislocker.c:527-535 | the concrete failure: one byte written at address 0 leaves zeros in the rest of the boot sector |
| DislockerFlat.SpareSector | SYN-SOFTWARE/dislocker-src/src/dislocker.c:365-370 | a direct window reaches a region it was not refused for only with the one sector it counts too many |
| DislockerFlat.MissedIsSpare | SYN-SOFTWARE/dislocker-src/src/dislocker.c:365-370 | any sector of the window without a byte of the request is the one counted too many |
| DislockerFlat.PassFrame | SYN-SOFTWARE/dislocker-src/src/dislocker.c:637-647 | the exact ciphertext afterwards of a sector that holds none of the request: unchanged, or encrypted zeros when the window takes it and it is metadata |
| DislockerFlat.StoredFrame | SYN-SOFTWARE/dislocker-src/src/dislocker.c:433-669 | every sector outside the metadata that holds no byte of the request keeps its ciphertext, across redirection and split |
| DislockerFlat.CleanRunIsFlat | SYN-SOFTWARE/dislocker-src/src/dislocker.c:433-669 | any run of requests whose bytes that reach the disk are clean leaves the view a plain array has after the same bytes |
| DislockerFlat.WriteAll | SYN-SOFTWARE/dislocker-src/src/dislocker.c:433-669 | any run of requests, refused, failed, halved and clipped ones among them: the view is the specified function of the first view, and a context that takes no writes keeps every sector |
| DislockerFlat.WriteThenRead | SYN-SOFTWARE/dislocker-src/src/dislocker.c:279-428 | any run of requests whatever becomes of each, then any unaligned read within the volume returns the bytes the specified view holds there; a plain array's when every request that reached the disk is clean; the first view's when the volume is read-only |
| Ring.Push | SYN-SOFTWARE/syn-iso-builder-src/src/syn_tui_buildlog.c:134-140 | writing entry n in slot n mod size keeps every one of the last entries in its slot |
| Ring.FromOldest | SYN-SOFTWARE/syn-iso-builder-src/src/syn_tui_buildlog.c:205-206 | counting slots from the oldest one reads the entries in the order they were written |
| BuildLog.Log.AppendLine | SYN-SOFTWARE/syn-iso-builder-src/src/syn_tui_buildlog.c:130-143 | adds the line, cut to 511 characters, to the history and ends any redraw |
| BuildLog.Log.UpdateProvisional | SYN-SOFTWARE/syn-iso-builder-src/src/syn_tui_buildlog.c:145-152 | sets the line being redrawn and leaves the finished lines alone |
| BuildLog.Log.Row | SYN-SOFTWARE/syn-iso-builder-src/src/syn_tui_buildlog.c:206-211 | the slot chosen for row i holds the i-th of the lines kept, wrapped or not |
| BuildLog.Log.Committed | SYN-SOFTWARE/syn-iso-builder-src/src/syn_tui_buildlog.c:203-214 | the finished rows drawn are the last ones that fit, in order |
| BuildLog.Log.Redraw | SYN-SOFTWARE/syn-iso-builder-src/src/syn_tui_buildlog.c:187-219 | after any history of calls the panel is the last lines in order, one fewer and the line being redrawn below them exactly when the last call was a redraw, nothing when there is no room |
| BuildLog.FillTail | SYN-SOFTWARE/syn-iso-builder-src/src/syn_software_build.c:121-132 | after the whole file the fifteen slots hold its last fifteen lines |
| BuildLog.PrintLogTail | SYN-SOFTWARE/syn-iso-builder-src/src/syn_software_build.c:113-138 | the last fifteen lines of the file in order, as a 1024-byte buffer reads them, each behind four spaces and cut to 1023 |
| BuildLog.ReadLength | SYN-SOFTWARE/syn-iso-builder-src/src/syn_software_build.c:124 | one buffered read takes everything through the first line feed, or a full buffer |
| BuildLog.FileReadsBack | SYN-SOFTWARE/syn-iso-builder-src/src/syn_software_build.c:121-132 | a file of lines that fit the buffer, ended with or without a carriage return, is read as exactly those lines |
| BuildLog.ReadsBuffer | SYN-SOFTWARE/syn-iso-builder-src/src/syn_software_build.c:124 | a longer line comes in pieces of 1023 characters |
| Terminal.PiecesJoin | SYN-SOFTWARE/syn-iso-builder-src/src/syn_build_runner.c:407-416 | splitting at line feeds loses nothing and leaves no line feed in a piece |
| Terminal.PiecesUnique | SYN-SOFTWARE/syn-iso-builder-src/src/syn_build_runner.c:407-416 | it is the only such split |
| Terminal.WalkPastTerminator | SYN-SOFTWARE/syn-iso-builder-src/src/syn_build_runner.c:247-264 | what the strip yields, whatever lies in memory behind the text: the stripped text, and the walk through that memory when the text ends inside a sequence |
| Terminal.StripSoundExactly | SYN-SOFTWARE/syn-iso-builder-src/src/syn_build_runner.c:247-264 | the strip depends on the text alone if and only if the text does not end inside an escape sequence |
| Terminal.StripsNothing | SYN-SOFTWARE/syn-iso-builder-src/src/syn_build_runner.c:247-264 | a text is handed on unchanged if and only if it holds no escape sequence |
| Terminal.StripsSequence | SYN-SOFTWARE/syn-iso-builder-src/src/syn_build_runner.c:247-264 | a sequence goes whole: escape, bracket, any run of digits and semicolons, and the one character behind it |
| Terminal.StripsWithin | SYN-SOFTWARE/syn-iso-builder-src/src/syn_build_runner.c:247-264 | the same behind any text that does not itself end inside a sequence |
| Terminal.StripsColours | SYN-SOFTWARE/syn-iso-builder-src/src/syn_build_runner.c:239-246 | however many sequences stand anywhere in a line, what is left is its plain text |
| Terminal.LastDrawn | SYN-SOFTWARE/syn-iso-builder-src/src/syn_build_runner.c:382-421 | a line drawn over and over shows what follows its last rewind |
| Terminal.ShownExactly | SYN-SOFTWARE/syn-iso-builder-src/src/syn_build_runner.c:37-49 | exactly the lines that are short enough, without terminators or sequences, are handed on as they were sent |
| Terminal.CrlfRoundTrip | SYN-SOFTWARE/syn-iso-builder-src/src/syn_build_runner.c:338-343 | lines without carriage returns, sent with CRLF endings, come back whole and in order |
| PtyStream.StripAnsi | SYN-SOFTWARE/syn-iso-builder-src/src/syn_build_runner.c:247-264 | the two-index walk equals its recursive form on any memory |
| PtyStream.ResolveNext | SYN-SOFTWARE/syn-iso-builder-src/src/syn_build_runner.c:382-421 | how one character changes what an open piece finally shows, the pending carriage return included |
| PtyStream.BytesNext | SYN-SOFTWARE/syn-iso-builder-src/src/syn_build_runner.c:380-422 | how one byte changes the finished lines and the open piece of the whole stream |
| PtyStream.NothingShown | SYN-SOFTWARE/syn-iso-builder-src/src/syn_build_runner.c:407-416 | an empty line, however it ends, is no line of the panel |
| PtyStream.Reader.Rewind | SYN-SOFTWARE/syn-iso-builder-src/src/syn_build_runner.c:392-404 | a carriage return that ended no line shows what is there, when due, and rewinds |
| PtyStream.Reader.Step | SYN-SOFTWARE/syn-iso-builder-src/src/syn_build_runner.c:380-422 | one character keeps the buffer equal to what the open piece resolves to, and hands on exactly the finished lines |
| PtyStream.Reader.Take | SYN-SOFTWARE/syn-iso-builder-src/src/syn_build_runner.c:380-422 | the same invariant against everything read so far, whenever redraws are due |
| PtyStream.Reader.Read | SYN-SOFTWARE/syn-iso-builder-src/src/syn_build_runner.c:370-422 | a chunk of any length is its bytes one after another, so how the stream is cut does not matter; a line being redrawn shows what the open line was at some point since the last one ended |
| PtyStream.Reader.Finish | SYN-SOFTWARE/syn-iso-builder-src/src/syn_build_runner.c:424-428 | an open last piece is treated like any other |
| PtyStream.StreamToPanel | SYN-SOFTWARE/syn-iso-builder-src/src/syn_build_runner.c:344-428 | for every stream and every chunking the panel gains one line for each declared line, in order, each begun by what is declared and exactly that unless it ends inside an escape sequence; lines with colours anywhere in them appear as their plain text; the rows drawn are the panel's tail |
| Words.TokensPlain | SYN-SOFTWARE/syn-bar-core-src/src/syn_bar_hum.c:1976 | no word of a line is empty or holds a blank |
| Words.PartsWords | SYN-SOFTWARE/syn-bar-core-src/src/syn_bar_hum.c:1976 | spaces, tabs and line ends part words wherever they stand |
| Words.DigitsNumber | SYN-SOFTWARE/syn-hum-src/src/syn_hum_map.c:54-57 | reading printed digits gives back the number and goes on where they end |
| Words.AtofTwoPlaces | SYN-SOFTWARE/syn-bar-core-src/src/syn_bar_hum.c:1984 | reading a volume printed to two places gives back its hundredths |
| Words.AtofWhole | SYN-SOFTWARE/syn-bar-core-src/src/syn_bar_hum.c:1984 | a volume without a point, and a negative one |
| Words.AtoiSigned | SYN-SOFTWARE/syn-bar-core-src/src/syn_bar_hum.c:1986 | signs, white space in front and whatever stands behind the digits |
| HumLine.KeyNamed | SYN-SOFTWARE/syn-bar-core-src/src/syn_bar_hum.c:1981-2024 | the chain of name comparisons finds each key by its own name |
| HumLine.UnknownKeysPassedOver | SYN-SOFTWARE/syn-bar-core-src/src/syn_bar_hum.h:15-16 | words whose key the reader does not know change nothing, wherever they stand and however often |
| HumLine.RunIsMeaning | SYN-SOFTWARE/syn-bar-core-src/src/syn_bar_hum.c:1968-2032 | with each known key once, a line means an order-free function of its key values |
| HumLine.OrderDoesNotMatter | SYN-SOFTWARE/syn-bar-core-src/src/syn_bar_hum.c:1968-2032 | two lists of words with distinct keys and the same words mean the same |
| HumLine.LinesPermute | SYN-SOFTWARE/syn-bar-core-src/src/syn_bar_hum.c:1968-2043 | a line whose words are another's in any other order is read the same |
| HumLine.MissingKeyIsZero | SYN-SOFTWARE/syn-bar-core-src/src/syn_bar_hum.h:15-16 | leaving a key out clears its own field, to 0 for a level, and nothing else |
| HumText.CoresRead | SYN-SOFTWARE/syn-bar-core-src/src/syn_bar_hum.c:2024-2031 | a printed list of up to sixteen core levels reads back |
| HumText.CrewRead | SYN-SOFTWARE/syn-bar-core-src/src/syn_bar_hum.c:2005-2023 | a printed list of up to eight members with clean ids reads back, ids, states and priorities |
| HumText.EveryIdClean | SYN-SOFTWARE/syn-bar-core-src/src/syn_bar_hum.c:2008-2023 | whatever text arrives, an id the reader takes is not empty, at most fifteen characters and free of colons and commas |
| HumText.CrewExactly | SYN-SOFTWARE/syn-hum-src/src/syn_hum_crew.c:66-75 | the printed crew reads back if and only if no id holds a colon or a comma |
| HumText.LineFits | SYN-SOFTWARE/syn-hum-src/src/main.c:217-219 | however much there is to say, the printed line fits the 1024-byte buffer with its terminator |
| HumText.LineWritten | SYN-SOFTWARE/syn-hum-src/src/syn_hum_map.c:53-63 | the whole text, key after key, each behind its own name |
| HumText.MemberWritten | SYN-SOFTWARE/syn-hum-src/src/syn_hum_crew.c:66-75 | a member as printed: id, colon, i, h, w or t, priority |
| HumText.ReadsBack | SYN-SOFTWARE/syn-bar-core-src/src/syn_bar_hum.c:1968-2032 | reading a printed line gives back every level, the style, the volume and the flags, whatever the crew's ids |
| HumText.RoundTripExactly | SYN-SOFTWARE/syn-bar-core-src/src/syn_bar_hum.c:1968-2032 | the whole line reads back if and only if no crew id holds a colon or a comma |
| HumVoice.Snprintf | SYN-SOFTWARE/syn-hum-src/src/syn_hum_map.c:53-63 | as much of the text as fits with its terminator, what was before it untouched, and the whole text's length |
| HumVoice.PrintList | SYN-SOFTWARE/syn-hum-src/src/syn_hum_crew.c:69-74 | items with commas between, printed one at a time: either all of it stands in the buffer or the count has passed its end |
| HumVoice.StepsLine | SYN-SOFTWARE/syn-hum-src/src/syn_hum_map.c:53-63 | the levels' text and its length, or -1 exactly when the buffer is too short for it |
| HumVoice.CrewKeys | SYN-SOFTWARE/syn-hum-src/src/syn_hum_crew.c:66-75 | the crew's text after what was there, or -1 exactly when the rest of the buffer is too short |
| HumVoice.Compose | SYN-SOFTWARE/syn-hum-src/src/main.c:217-219 | the line sent is the fourteen keys in their order, each with its own field's text, written out; none is sent exactly when it would not fit |
| HumVoice.ReadCores | SYN-SOFTWARE/syn-bar-core-src/src/syn_bar_hum.c:2024-2031 | the loop over a list reads the numbers from the front until the voices run out |
| HumVoice.ReadCrew | SYN-SOFTWARE/syn-bar-core-src/src/syn_bar_hum.c:2005-2023 | the loop over a list of members passes over text without an id and a colon before the comma |
| HumVoice.ReadWord | SYN-SOFTWARE/syn-bar-core-src/src/syn_bar_hum.c:1976-2031 | one word updates the fields as its key says and keeps the arrays within their sizes |
| HumVoice.ReadLine | SYN-SOFTWARE/syn-bar-core-src/src/syn_bar_hum.c:1968-2032 | the reader's loop over a line, cut to its buffer, is the specified fold over its words |
| HumVoice.Shared.Line | SYN-SOFTWARE/syn-bar-core-src/src/syn_bar_hum.c:2033-2042 | levels are the latest line's, style and volume the latest that set them, and the one-offs those of any line not yet taken |
| HumVoice.Shared.Take | SYN-SOFTWARE/syn-bar-core-src/src/syn_bar_hum.c:2250-2263 | the voice takes a one-off if and only if some line since the last take carried it, so each is heard once and none is lost |
| HumVoice.Tick | SYN-SOFTWARE/syn-hum-src/src/main.c:217-222 | from sender to voice, whatever the crew's ids: levels, style and volume arrive as they were and the one-offs are added to those waiting; the crew arrives if and only if no id holds a colon or a comma |
| HumWire.LevelWords | SYN-SOFTWARE/syn-bar-core-src/src/syn_bar_hum.c:1985-2002 | for any value, the word of each of the seven levels sets that level alone, clamped to 0 to 15 |
| HumWire.OtherWords | SYN-SOFTWARE/syn-bar-core-src/src/syn_bar_hum.c:1983-2031 | for any value, the words of the flags, the volume and the two lists set theirs alone |
| HumWire.StyleWords | SYN-SOFTWARE/syn-bar-core-src/src/syn_bar_hum.c:1981-1982 | each of the seven style names sets its number and any other name none |
| HumWire.MemberWord | SYN-SOFTWARE/syn-bar-core-src/src/syn_bar_hum.c:2005-2023 | w, h and t are working, waiting and talking, any other letter idle |
| HumWire.LevelWritten | SYN-SOFTWARE/syn-hum-src/src/syn_hum_map.c:54-57 | levels are printed in decimal |
| HumWire.VolumeWritten | SYN-SOFTWARE/syn-hum-src/src/syn_hum_map.c:54 | a volume is printed with a point and two digits |
| Stepper.Stepper.Feed | SYN-SOFTWARE/syn-hum-src/src/syn_hum_map.c:19-28 | the average goes 0.22 of the way to the clamped signal; the step stays exactly while the average is within 0.7 of it and otherwise goes to the nearest |
| Stepper.FedSound | SYN-SOFTWARE/syn-hum-src/src/syn_hum_map.c:19-28 | average in [0,1], step in 0-15 and distance at most 0.7 are kept by any input, and a change happens only past the band and lands within half a step |
| Stepper.RunSound | SYN-SOFTWARE/syn-hum-src/src/syn_hum_map.c:19-28 | the same over every run |
| Stepper.ChangesCostTravel | SYN-SOFTWARE/syn-hum-src/src/syn_hum_map.c:23-26 | every change of step is paid for by a fifth of a step's travel of the average, the rest carried as a debt from one change to the next |
| Stepper.ChangesBounded | SYN-SOFTWARE/syn-hum-src/src/syn_hum_map.c:23-26 | over any run from rest the step changes at most five times for each step's worth of travel |
| Stepper.Closes | SYN-SOFTWARE/syn-hum-src/src/syn_hum_map.c:22 | under a constant input the distance is exactly 0.78 to the n of the first one, and the travel exactly what it closed |
| Stepper.ConstantInputSettles | SYN-SOFTWARE/syn-hum-src/src/syn_hum_map.c:19-28 | under a constant input the step changes finitely often and comes to rest within 0.7 of it |
| HumMap.Map.Cores | SYN-SOFTWARE/syn-hum-src/src/syn_hum_map.c:31-35 | the first sixteen cores' steppers step once each on their own signal and no other stepper moves |
| HumMap.Map.Sample | SYN-SOFTWARE/syn-hum-src/src/syn_hum_map.c:30-51 | every signal steps its own stepper once from where that one was, each level reported is that stepper's, and what is reported is always what the line can carry |
| Rhythm.HitPasses | SYN-SOFTWARE/syn-bar-core-src/src/syn_bar_hum.c:914-918 | a step is a hit exactly when it passes a multiple of the bar's length |
| Rhythm.EvenlySpread | SYN-SOFTWARE/syn-bar-core-src/src/syn_bar_hum.c:914-918 | any window of w steps, wherever it starts and however it wraps, holds w*h/n hits rounded down or up |
| Rhythm.BarHasAllHits | SYN-SOFTWARE/syn-bar-core-src/src/syn_bar_hum.c:914-918 | a bar holds exactly its number of hits, however it is turned |
| Events.ExactCounts | SYN-SOFTWARE/syn-bar-core-src/src/syn_bar_hum.c:376-380 | durations of sixteenths, of sixteenths less 0.11 s and of gaps come back as exactly their counts of samples |
| Events.SampledLeft | SYN-SOFTWARE/syn-bar-core-src/src/syn_bar_hum.c:486-495 | each sample takes exactly one from what an event has left, and an event ends exactly when nothing is left |
| Events.LaterNext | SYN-SOFTWARE/syn-bar-core-src/src/syn_bar_hum.c:689-693 | an event n samples later has n fewer samples left, or has ended |
| Events.ToBar | SYN-SOFTWARE/syn-bar-core-src/src/syn_bar_hum.c:384-387 | the gap computed is less than a bar and ends on a bar line |
| Events.GapLasts | SYN-SOFTWARE/syn-bar-core-src/src/syn_bar_hum.c:410-413 | the silence put first lasts exactly that gap |
| Groove.LayerBar | SYN-SOFTWARE/syn-bar-core-src/src/syn_bar_hum.c:856-885 | a kick on each beat, bass on its second and third sixteenths, hats on all sixteen, clanks on two and four, each on the very sample, in a bar of 90000 samples that ends 5280 short |
| Groove.RumbleBar | SYN-SOFTWARE/syn-bar-core-src/src/syn_bar_hum.c:889-897 | the rumble sounds from the second sixteenth of each beat on, on the exact samples, and ends as short |
| Groove.BedBar | SYN-SOFTWARE/syn-bar-core-src/src/syn_bar_hum.c:926-951 | a member at work or talking: on exactly the sixteenths their priority and the hash of their name give, over 90000 samples less 5280; waiting: one bell and then silence, over 180000 less 5280 |
| Groove.NextBarLine | SYN-SOFTWARE/syn-bar-core-src/src/syn_bar_hum.c:850-853 | the slack: a bar that sounded at one tick and not at the next is followed on its own bar line |
| Groove.Synth.EventNew | SYN-SOFTWARE/syn-bar-core-src/src/syn_bar_hum.c:393-415 | the first free slot; none exactly when all are taken or the kind must be alone and is not |
| Groove.Synth.EventPlaying | SYN-SOFTWARE/syn-bar-core-src/src/syn_bar_hum.c:417-422 | yes exactly when an active event has that kind |
| Groove.Synth.Arm | SYN-SOFTWARE/syn-bar-core-src/src/syn_bar_hum.c:393-415 | if a slot is free the kind's own score is placed to begin on the next bar line and to last its bar or two less the slack, no other event is touched, and the record of its bars grows by that one |
| Groove.ScoresAre | SYN-SOFTWARE/syn-bar-core-src/src/syn_bar_hum.c:1659-1668 | the rumble, each layer and each member have their own score |
| Groove.Synth.Keep | SYN-SOFTWARE/syn-bar-core-src/src/syn_bar_hum.c:1665-1667 | a held sound is armed again only once its last bar has ended, and afterwards it sounds or no slot was free |
| Groove.Synth.HoldTick | SYN-SOFTWARE/syn-bar-core-src/src/syn_bar_hum.c:1659-1668 | one tick: for any kind, nothing or one bar armed after the last ended, and that only if the kind is wanted; afterwards a wanted kind sounds, or the tick is counted as missed and every slot is taken |
| Groove.Synth.Render | SYN-SOFTWARE/syn-bar-core-src/src/syn_bar_hum.c:1858-1878 | any number of samples moves the clock by as many and keeps every bar ending when its record says |
| Groove.PlayTick | SYN-SOFTWARE/syn-bar-core-src/src/syn_bar_hum.c:2294-2305 | a tick and its five blocks, with any other sounds beginning in them, does to the bars only what the tick did, and serves a wanted kind unless it was missed; what the record says of the latest bar is what the one event of the kind still has to play |
| Groove.Voice | SYN-SOFTWARE/syn-bar-core-src/src/syn_bar_hum.c:2294-2305 | over any run, whatever else sounds, while a kind stays wanted and no tick missed it for want of a slot: a bar on every bar line from the first one, 90000 samples apart, for layers, the rumble and members at work or talking; 180000 apart for a member waiting; up to the latest tick |
| Groove.GaplessGroove | SYN-SOFTWARE/syn-bar-core-src/src/syn_bar_hum.c:850-853 | any served run of ticks leaves bars that start on the first line, none skipped, doubled or off the grid, up to the latest tick |
| Groove.EveryBarLine | SYN-SOFTWARE/syn-bar-core-src/src/syn_bar_hum.c:850-853 | bars of one length begin exactly as far apart as they last, 90000 or 180000 samples |
| Ulaw.Encode | SYN-SOFTWARE/syn-bar-core-src/src/syn_bar_hum.c:151-163 | the mask loop finds the segment of the biased magnitude and packs sign, segment and step |
| Ulaw.HalfStep | SYN-SOFTWARE/syn-bar-core-src/src/syn_bar_hum.c:151-170 | a sample comes back within half a quantisation step, 2 to the exponent plus 2, of its clipped value |
| Ulaw.Odd | SYN-SOFTWARE/syn-bar-core-src/src/syn_bar_hum.c:151-170 | the code is odd |
| Ulaw.Monotone | SYN-SOFTWARE/syn-bar-core-src/src/syn_bar_hum.c:151-170 | the code is monotone over all integers |
| Ulaw.ReencodeExactly | SYN-SOFTWARE/syn-bar-core-src/src/syn_bar_hum.c:151-170 | encoding a decoded code word gives it back for every word but 127, the negative zero, and decodes to the same level even there |
| Ulaw.InRange | SYN-SOFTWARE/syn-bar-core-src/src/syn_bar_hum.c:165-170 | what leaves the line is at most 32124 in magnitude |
| Ulaw.KnownWords | SYN-SOFTWARE/syn-bar-core-src/src/syn_bar_hum.c:151-163 | both zeros, both ends and one sample in between have the words the standard's tables give them |
| Ulaw.KnownLevels | SYN-SOFTWARE/syn-bar-core-src/src/syn_bar_hum.c:165-170 | and those words their levels |
| PhoneLine.Line.Loses | SYN-SOFTWARE/syn-bar-core-src/src/syn_bar_hum.c:197-206 | a burst goes on until it is used up; a new one loses this packet and two to seven more |
| PhoneLine.Line.Conceal | SYN-SOFTWARE/syn-bar-core-src/src/syn_bar_hum.c:208-213 | the packet played is the last good one faded by the length of the run of losses |
| PhoneLine.Line.Deliver | SYN-SOFTWARE/syn-bar-core-src/src/syn_bar_hum.c:195-228 | whatever the network does, what plays, the last good packet and the run of losses stay the specified functions of all packets and fates so far |
| PhoneLine.Line.Exchange | SYN-SOFTWARE/syn-bar-core-src/src/syn_bar_hum.c:241-247 | the sample is coded into the packet being filled and one sample of the packet that plays goes out |
| PhoneLine.Line.Step | SYN-SOFTWARE/syn-bar-core-src/src/syn_bar_hum.c:241-252 | every run keeps the trace: output n is from what played when the packet n falls in began; of everything ever said, what is heard of packets that came in time is that, 160 samples later |
| PhoneLine.PlayingNext | SYN-SOFTWARE/syn-bar-core-src/src/syn_bar_hum.c:208-228 | how one packet changes what plays, for each fate |
| PhoneLine.CleanCall | SYN-SOFTWARE/syn-bar-core-src/src/syn_bar_hum.c:241-252 | whatever became of other packets, a sample whose packet arrived in time comes out exactly 160 samples later as coded, and silence before the first packet |
| PhoneLine.CleanCallHalfStep | SYN-SOFTWARE/syn-bar-core-src/src/syn_bar_hum.c:241-252 | the same in samples said: within half a quantisation step of the clipped sample 160 earlier, whatever was lost around it |
| PhoneLine.LateIsSilence | SYN-SOFTWARE/syn-bar-core-src/src/syn_bar_hum.c:214-218 | a packet too late for the jitter buffer is silence where it was |
| PhoneLine.StutterPlaysTwice | SYN-SOFTWARE/syn-bar-core-src/src/syn_bar_hum.c:223-227 | the jitter buffer catching up: forty samples are the forty before them again, the rest of the packet as it came |
| PhoneLine.LossFades | SYN-SOFTWARE/syn-bar-core-src/src/syn_bar_hum.c:208-213 | sample by sample, the packet lost r-th in a row is the last one not lost at 1 - r/4 of it, toward zero; silence from the fourth on or before any packet |
| PhoneLine.Conceals | SYN-SOFTWARE/syn-bar-core-src/src/syn_bar_hum.c:208-213 | a concealed sample is at most the good one in magnitude, keeps its sign, and is 0 from the fourth loss in a row |
| PhoneLine.GoodBeforeRun | SYN-SOFTWARE/syn-bar-core-src/src/syn_bar_hum.c:208-228 | through any run of losses the packet repeated is the last one before the run |
| Comb.Filter.Comb | SYN-SOFTWARE/syn-bar-core-src/src/syn_bar_hum.c:1719-1728 | one sample of the ring is one step of the delay line it stands for |
| Comb.Filter.Allpass | SYN-SOFTWARE/syn-bar-core-src/src/syn_bar_hum.c:1730-1737 | the same for the allpass, low-pass untouched |
| Comb.Turn | SYN-SOFTWARE/syn-bar-core-src/src/syn_bar_hum.c:1725-1726 | writing at the position and stepping on shifts the delay line |
| Comb.StaysBounded | SYN-SOFTWARE/syn-bar-core-src/src/syn_bar_hum.c:1719-1728 | inputs within m keep cells and low-pass within any bound the feedback leaves room for |
| Comb.AllpassBounded | SYN-SOFTWARE/syn-bar-core-src/src/syn_bar_hum.c:1730-1737 | inputs within m keep cells within 2m and outputs within 3m |
| Comb.TwoPasses | SYN-SOFTWARE/syn-bar-core-src/src/syn_bar_hum.c:1719-1728 | two passes of silence shrink everything held by fb + (1 - fb) * d^L at least |
| Comb.SilenceDiesAway | SYN-SOFTWARE/syn-bar-core-src/src/syn_bar_hum.c:1719-1728 | a comb fed zeros falls below any positive threshold after finitely many samples and stays there |
| Reverb.EveryRoomIsSane | SYN-SOFTWARE/syn-bar-core-src/src/syn_bar_hum.c:301-313 | the table of rooms satisfies what the bounds need |
| Impulse.RoomsWritten | SYN-SOFTWARE/syn-bar-core-src/src/syn_bar_hum.c:301-313 | every style's reverb and echo, in samples and shares |
| Impulse.DelaysWritten | SYN-SOFTWARE/syn-bar-core-src/src/syn_bar_hum.c:1580-1585 | the lengths of the twelve delays of each side in samples at 48 kHz |
| Reverb.TapeBounded | SYN-SOFTWARE/syn-bar-core-src/src/syn_bar_hum.c:1801-1813 | the tape and what is read off it stay within its inputs' bound |
| Reverb.EchoBounded | SYN-SOFTWARE/syn-bar-core-src/src/syn_bar_hum.c:1815-1825 | both lines and both low-passes stay within 30m/11, which is 0.6m over 1 - 0.78, and the sum within 26m/11 |
| Reverb.HangsBetween | SYN-SOFTWARE/syn-bar-core-src/src/syn_bar_hum.c:1649-1650 | however tasks wait on IO, the echo's feedback stays between 0.45 and 0.78 and closes a tenth of its distance |
| Reverb.SideBounded | SYN-SOFTWARE/syn-bar-core-src/src/syn_bar_hum.c:1827-1836 | eight combs and four allpasses keep each cell within its bound, and what comes out within 81 times the combs' sum |
| Reverb.RoomBounded | SYN-SOFTWARE/syn-bar-core-src/src/syn_bar_hum.c:1792-1839 | inputs within m keep every cell of the room within its bound and what comes out within 424m |
| Reverb.RunBounded | SYN-SOFTWARE/syn-bar-core-src/src/syn_bar_hum.c:1792-1839 | the same over every run of samples and ticks: no load can push the room further |
| Reverb.NothingIsUnder | SYN-SOFTWARE/syn-bar-core-src/src/syn_bar_hum.c:1792-1839 | an empty room is within the bounds of inputs of any size |
| Impulse.SampleWritten | SYN-SOFTWARE/syn-bar-core-src/src/syn_bar_hum.c:1792-1839 | one sample of a room that does not rest: what tape, echo and both sides of the reverb are fed, and what is heard of each |
| Impulse.RestWritten | SYN-SOFTWARE/syn-bar-core-src/src/syn_bar_hum.c:1792-1799 | a resting room is left as it is and passes what goes in; until then quiet samples are counted and a sound starts the count again |
| Impulse.CombsHearBoth | SYN-SOFTWARE/syn-bar-core-src/src/syn_bar_hum.c:1827-1831 | with neither tape nor echo every comb on both sides is fed 0.015 of left plus right |
| Impulse.CombsWritten | SYN-SOFTWARE/syn-bar-core-src/src/syn_bar_hum.c:1719-1728 | each of the eight combs: its low-pass toward the oldest cell, and the newest cell the input plus what that returns |
| Impulse.AllsWritten | SYN-SOFTWARE/syn-bar-core-src/src/syn_bar_hum.c:1833-1836 | the sum of the combs through the four allpasses, what each keeps and what comes out |
| Impulse.EchoWritten | SYN-SOFTWARE/syn-bar-core-src/src/syn_bar_hum.c:1815-1825 | the left line is fed 0.3 of left plus right, each line what the other's low-pass returns |
| Impulse.TapeIsBehind | SYN-SOFTWARE/syn-bar-core-src/src/syn_bar_hum.c:1804-1811 | a tape that rises by one a sample is heard exactly 240 plus 144 times wobble times sine below its newest |
| Impulse.PingPong | SYN-SOFTWARE/syn-bar-core-src/src/syn_bar_hum.c:1815-1825 | one sample into an empty echo: back once on the left after the line's length, six tenths of its middle, and after as long again on the right, a quarter of that times the feedback |
| Impulse.RoomAnswers | SYN-SOFTWARE/syn-bar-core-src/src/syn_bar_hum.c:1792-1839 | one sample into a new room of any style: heard as it is, then nothing until sample 1214 on the left and 1239 on the right, where 0.015 of left plus right comes out upright at the style's share |
| Reverb.NewIsEmpty | SYN-SOFTWARE/syn-bar-core-src/src/syn_bar_hum.c:1572-1586 | a room of the style's lengths with zeros in it is an empty room, so that what is proved from empty rooms is about rooms there are |
| Envelope.CombNext | SYN-SOFTWARE/syn-bar-core-src/src/syn_bar_hum.c:1719-1728 | a comb fed under a falling envelope stays under one of its own, over the floor its inaudible input keeps up |
| Envelope.EchoNextFades | SYN-SOFTWARE/syn-bar-core-src/src/syn_bar_hum.c:1815-1825 | both echo lines and low-passes fall by a rate per sample that their feedback leaves room for |
| Envelope.SideNextFades | SYN-SOFTWARE/syn-bar-core-src/src/syn_bar_hum.c:1827-1836 | eight combs and four allpasses fall with the echo that feeds them, and so does what they give out |
| Resting.TapeStaysQuiet | SYN-SOFTWARE/syn-bar-core-src/src/syn_bar_hum.c:1801-1813 | with its newest 384 samples inaudible, what leaves the tape is inaudible at any wobble and any phase |
| Resting.QuietRunFades | SYN-SOFTWARE/syn-bar-core-src/src/syn_bar_hum.c:1792-1839 | over any run of inaudible samples and ticks before the rest, from anything inputs within m can leave: tape, echo, combs and allpasses stay under an envelope that falls with every sample |
| Rates.FastPowers | SYN-SOFTWARE/syn-bar-core-src/src/syn_bar_hum.c:1795-1796 | between proved bounds, how much the envelope's rate leaves over each echo's length and over six seconds |
| Resting.SixSeconds | SYN-SOFTWARE/syn-bar-core-src/src/syn_bar_hum.c:1789-1799 | every row of the table of rooms, six seconds after the last audible sample: echo, combs, allpasses and what the room would give out are all under their shares of the level of 0.0003 of m, 75 dB below the most they can be; techno's while no tick asks its echo for a feedback over 0.534 |
| Resting.AfterAnyRun | SYN-SOFTWARE/syn-bar-core-src/src/syn_bar_hum.c:1789-1839 | the same after any run at all from a new room on that ends with an audible sample |
| Resting.SixSecondsOfTechno | SYN-SOFTWARE/syn-bar-core-src/src/syn_bar_hum.c:1789-1799 | techno's room whatever the ticks asked of its echo: 0.065 of m after six seconds, which is audible |
| SteadyEcho.StaysTight | SYN-SOFTWARE/syn-bar-core-src/src/syn_bar_hum.c:1815-1825 | whatever comes in within m, at any feedback up to fb: the left line and the low-pass it feeds stay within 0.6m/(1 - fb^2), the right line and its own within fb times that |
| SteadyEcho.RunTight | SYN-SOFTWARE/syn-bar-core-src/src/syn_bar_hum.c:1792-1839 | the same over every run of any room in which no tick asks for a feedback over fb |
| SteadyEcho.DominatedNext | SYN-SOFTWARE/syn-bar-core-src/src/syn_bar_hum.c:1815-1825 | a sample of inaudible input leaves no cell and no low-pass over what silence leaves of a louder echo at a higher feedback, over the floor that input keeps up |
| SteadyEcho.CoversNext | SYN-SOFTWARE/syn-bar-core-src/src/syn_bar_hum.c:1815-1825 | a loud sample brings the echo to within what silence would leave of the loudest one, cell by cell |
| SteadyEcho.ResidueOrdered | SYN-SOFTWARE/syn-bar-core-src/src/syn_bar_hum.c:1815-1825 | through any silence the loudest echo's cells stay in order of age, so its oldest is its level |
| TechnoRest.FeedbackRises | SYN-SOFTWARE/syn-bar-core-src/src/syn_bar_hum.c:1649-1650 | n ticks at one step of IO waiting leave exactly 0.9^n of what the feedback is short of its target |
| TechnoRest.QuietDominated | SYN-SOFTWARE/syn-bar-core-src/src/syn_bar_hum.c:1789-1839 | through quiet samples and ticks at or under a step, the echo stays under what the loudest one keeps at that step's feedback |
| TechnoRest.LifeRests | SYN-SOFTWARE/syn-bar-core-src/src/syn_bar_hum.c:1789-1839 | every run from a new techno room, with IO waiting never past a step: anything within m up to an audible sample, then six quiet seconds, leaves the echo within that step's level, over the floor inaudible input keeps up |
| TechnoRest.FillsUp | SYN-SOFTWARE/syn-bar-core-src/src/syn_bar_hum.c:1649-1650 | from a new room, seventeen and a half seconds of one sound at a step leave the echo within a thousandth of the loudest there is and the feedback within 0.0006 of its target |
| TechnoRest.TechnoRestsExactly | SYN-SOFTWARE/syn-bar-core-src/src/syn_bar_hum.c:1789-1839 | every run from a new room in which IO waiting never passes step k rests within the level of step `chosen`, over the floor inaudible input keeps up, if and only if k is at most `chosen` |
| TechnoRest.LowAtThree | SYN-SOFTWARE/syn-bar-core-src/src/syn_bar_hum.c:1815-1825 | the level in figures: at step 3 the loudest echo keeps under a sixteen-thousandth of the sound |
| TechnoRest.TechnoKeepsItsEcho | SYN-SOFTWARE/syn-bar-core-src/src/syn_bar_hum.c:1789-1799 | the run that fails: from a new room, ticks at step 15 with seventeen and a half seconds of sound and six of silence; the room rests with 0.013 of the sound or more in every cell of both echo lines, frozen there |
| StaleTape.QuietExactly | SYN-SOFTWARE/syn-bar-core-src/src/syn_bar_hum.c:1801-1813 | what leaves the tape is inaudible however it goes on wobbling if and only if its newest 384 samples are |
| StaleTape.StartsAgain | SYN-SOFTWARE/syn-bar-core-src/src/syn_bar_hum.c:1801-1813 | in any room, after at least the tape's length of one sound was recorded and any run at all without the tape, that sound leaves the tape when it starts again, at any wobble and phase, whatever goes in |
| StaleTape.StaleTapeSounds | SYN-SOFTWARE/syn-bar-core-src/src/syn_bar_hum.c:1789-1813 | the failure, from a new uplink room: the tape records a sound of level m and stops, between 5.9 and 6 quiet seconds pass without it, and when it starts again silence goes in and both channels of the room give out 0.92m - 0.0005 or more |
| Room.TapeRead | SYN-SOFTWARE/syn-bar-core-src/src/syn_bar_hum.c:1806-1811 | the two slots around the read position are the delay line, interpolated that many samples behind its newest |
| Room.Wobble.Tick | SYN-SOFTWARE/syn-bar-core-src/src/syn_bar_hum.c:1801-1813 | records both channels and plays them back from between 96 and 384 samples ago, ring indices in range |
| Room.Echo.Tick | SYN-SOFTWARE/syn-bar-core-src/src/syn_bar_hum.c:1815-1825 | one sample of the two rings is one step of the crossed delay lines |
| Room.Echo.Hang | SYN-SOFTWARE/syn-bar-core-src/src/syn_bar_hum.c:1649-1650 | a tick leaves nine tenths of the distance to the feedback IO waiting asks for, and never takes the feedback out of 0.45 to 0.78 |
| Room.Filters | SYN-SOFTWARE/syn-bar-core-src/src/syn_bar_hum.c:1578-1585 | new filters share nothing, are silent and have the lengths of their tunes |
| Room.AllCombs | SYN-SOFTWARE/syn-bar-core-src/src/syn_bar_hum.c:1829-1832 | every comb steps once on the same input and the outputs add up |
| Room.AllAllpasses | SYN-SOFTWARE/syn-bar-core-src/src/syn_bar_hum.c:1833-1836 | each allpass steps once on what the one before gave |
| Room.Bank.Tick | SYN-SOFTWARE/syn-bar-core-src/src/syn_bar_hum.c:1828-1836 | one side of the reverb is the combs' sum through the allpasses |
| Room.NewRoom | SYN-SOFTWARE/syn-bar-core-src/src/syn_bar_hum.c:1572-1586 | a new room shares nothing between its parts, is the empty room every run starts from: nothing in it, its style's lengths and feedback |
| Room.Room.Tick | SYN-SOFTWARE/syn-bar-core-src/src/syn_bar_hum.c:1792-1839 | one sample through the rings is one step of the specified room, resting included |
| Room.Room.Play | SYN-SOFTWARE/syn-bar-core-src/src/syn_bar_hum.c:1792-1839 | a whole run of the rings is the specified run, so every bound of a run holds of them |
| Limiter.Chain.Duck | SYN-SOFTWARE/syn-bar-core-src/src/syn_bar_hum.c:1923-1926 | moves toward the ducked level while anyone talks and back after, at the right rate, never past -10 dB or 1 |
| Limiter.Chain.Press | SYN-SOFTWARE/syn-bar-core-src/src/syn_bar_hum.c:1929-1935 | the envelope follows the peak at its own rate and the gain is the power law's exactly when it is over the ceiling |
| Limiter.Chain.Limit | SYN-SOFTWARE/syn-bar-core-src/src/syn_bar_hum.c:1936-1943 | the envelope is never below the current peak, so both channels leave at or under the limit, scaled alike |
| Limiter.Chain.Sample | SYN-SOFTWARE/syn-bar-core-src/src/syn_bar_hum.c:1925-1943 | the ceiling follows the peak after volume and duck, the limit the peak after pressing, each at its own rate; whatever comes in and whatever the state, both channels leave at or under the limit under one common gain: exactly the volume and the duck, times the power law's gain while the ceiling acts, times what holds the limit's envelope to the limit |
| Limiter.FourToOne | SYN-SOFTWARE/syn-bar-core-src/src/syn_bar_hum.c:1921-1935 | the fourth power of a pressed level grows only as fast as the level: four to one |
| Limiter.PressedRange | SYN-SOFTWARE/syn-bar-core-src/src/syn_bar_hum.c:1931-1935 | what is pressed stays over the ceiling and under where it was |
| Limiter.LouderStaysLouder | SYN-SOFTWARE/syn-bar-core-src/src/syn_bar_hum.c:1931-1935 | pressing keeps the order of levels |
| Limiter.WayLeft | SYN-SOFTWARE/syn-bar-core-src/src/syn_bar_hum.c:1925-1926 | after n samples the duck has exactly (1 - rate)^n of its way left |
| Limiter.Settles | SYN-SOFTWARE/syn-bar-core-src/src/syn_bar_hum.c:1923-1926 | held long enough, the duck is as near its level as one likes and stays there |
| Limiter.MovedBetween | SYN-SOFTWARE/syn-bar-core-src/src/syn_bar_hum.c:1926 | an envelope's step stays between where it was and where it is going |
| Limiter.FollowIs | SYN-SOFTWARE/syn-bar-core-src/src/syn_bar_hum.c:1939 | the limit's envelope goes to a higher peak at once and otherwise its share of the way down |
| Limiter.ComesDownSlowly | SYN-SOFTWARE/syn-bar-core-src/src/syn_bar_hum.c:1939 | under a lower peak it has exactly (1 - rate)^n of the way left after n samples |
| Limiter.PeakIs | SYN-SOFTWARE/syn-bar-core-src/src/syn_bar_hum.c:1929 | the peak is the louder of both channels |
| Limiter.GainWritten | SYN-SOFTWARE/syn-bar-core-src/src/syn_bar_hum.c:1925-1943 | the gain is volume times duck times the press times the limit over its envelope |
| Limiter.FitsSixteenBits | SYN-SOFTWARE/syn-bar-core-src/src/syn_bar_hum.c:1944-1945 | what is written always fits 16 bits and the limit's own level |
| HeardList.RunsExpand | SYN-SOFTWARE/syn-bar-core-src/src/syn_bar_hum.c:111-130 | for texts that fit their slots the runs kept are proper and expand to exactly what was heard |
| HeardList.OneEncoding | SYN-SOFTWARE/syn-bar-core-src/src/syn_bar_hum.c:111-130 | there is no other proper way to write the same sounds as runs, so it is the run-length encoding |
| HeardList.LongNeverFolds | SYN-SOFTWARE/syn-bar-core-src/src/syn_bar_hum.c:119-127 | a text longer than its slot never folds: each time it is a line of its own |
| HeardList.HeardAgain | SYN-SOFTWARE/syn-bar-core-src/src/syn_bar_hum.c:111-130 | the same sound again counts one more in its run under the newer time, any other begins a run of its own, cut to 79 characters |
| HeardList.NewestIsNewest | SYN-SOFTWARE/syn-bar-core-src/src/syn_bar_hum.c:111-130 | the newest line is the newest sound's, in text and time |
| HeardList.LineWritten | SYN-SOFTWARE/syn-bar-core-src/src/syn_bar_hum.c:139-142 | a line is time, text and, from the second time on, how often |
| HeardList.Heard.Add | SYN-SOFTWARE/syn-bar-core-src/src/syn_bar_hum.c:111-130 | folds the sound into the newest slot or takes the next one, and keeps the slots the last runs of the whole history |
| HeardList.Heard.RunBack | SYN-SOFTWARE/syn-bar-core-src/src/syn_bar_hum.c:136-140 | the slot read i back from the newest holds the i-th run back |
| HeardList.Heard.Reply | SYN-SOFTWARE/syn-bar-core-src/src/syn_bar_hum.c:132-146 | the reply is the last eight runs, newest first, each with its count, and always fits |

## Left out

- Dislocker: volumes of version 1 (Vista), the partition offset, 64-bit overflow of offsets, null contexts and buffers, the log output and the threads that share one request's sectors. Metadata is assumed sound: regions on sector edges, the virtualised size the backup area's, the head itself in no region. A file that grows when written past its end is not modelled.
- Dislocker.Context.EncryptRegion: the code also reports success when the system writes fewer bytes than asked; a successful write here stores every sector of the window that the disk has.
- Dislocker.Context.Dislock: a read is not clipped at the volume's end, as in the code; what lies past it is whatever those sectors read as.
- PtyStream: `select`, `read` and the clock; whether a redraw is due is an arbitrary input for every character. Bytes are characters.
- BuildLog: colours, frames and the panel's geometry; how wide a row is cut when drawn.
- HumLine: `atof`'s exponents, hexadecimal, infinities and NaN; `atoi`'s overflow, which C leaves undefined.
- HumVoice.Shared: the lock, the clock of the last line, `HUM-OFF` and `HUM-TOUR`.
- HumText.Report: the volume is in hundredths, as all of the configuration's gains are; rounding of other values by `%.2f` is not modelled.
- HumMap: the logarithms that put stalls, processes, switches and packets on a stepper's scale; a signal arrives already scaled.
- PhoneLine: the comfort noise added before coding and its changes of level; the chances of each loss are arbitrary draws, so only what a loss does is stated, not how often it happens.
- Groove: what the segments sound like; sounds that are not held are arbitrary segments of another kind. Styles other than techno do not use the grid.
- Reverb: filters and grains ahead of the room; coefficients in single precision.
- Resting.SixSeconds: one rate serves all rooms, so most are quieter than the level stated.
- Limiter: `tanh` is any saturation that lowers a magnitude; the rates' values (80 ms, 0.8 s, 5 ms) are rates between 0 and 1.
- HeardList: the clock and the write to the socket.
- The tour, the timbres, the scales, the status commands, the configuration files and the sampling of `/proc`: plumbing or sound design whose properties would be easy.
- The installers, menus, bar widgets, browser, relay protocol tables and the crypter's file formats: user interface, foreign interfaces or easy round trips.
