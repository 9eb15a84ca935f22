# SEG-D dump tools, modelled in Dafny

This project models three small field utilities from a marine seismic
processing toolkit.

- **`dug-segd-dump-ffid-rename.py`** works on one seismic line directory. It:
  - walks the `REELnnnn` sub-directories of the line directory;
  - reads the field file number (FFID) of each raw SEG-D dump file from the file's header;
  - copies the file into the line directory as `<8-character id>.ffid`, never over an existing name;
  - verifies the copy by checksum;
  - keeps six outcome counters and an append-only log.

  Two header fields matter:
  - General Header Block #1, bytes 1-2: four BCD digits, rendered as hex text;
  - General Header Block #2, bytes 1-3: a 24-bit big-endian binary number, at file offsets 32-34.
- **`dug-log-strip-001.py`** reads a real-time QC log line by line. It:
  - collapses runs of spaces;
  - tracks the current shot point;
  - collects four series of `(shot point, value)` records;
  - sorts each series by shot point.
- **`create-project-dir.py`** first normalises three answers (lower case, spaces to `_`). It then composes `/<vessel>/contracts/<job>-<client>-<survey>`. After confirmation it creates that directory and nine fixed sub-directories, leaving existing ones alone.

Files:

- `wrappers.dfy`: `Option` and `Result`.
- `pytext.dfy`: the Python `str` operations the scripts use, on ASCII text:
  - `lower`, `strip` and `split`;
  - substring search;
  - `isdigit`, `int()` and `str()`;
  - the `'{:0>8}'` padding.
- `segd_header.dfy`: the two header decoders. Each is a loop method, proved against a specification function (`HexString`, `BigEndian`).
- `ffid_rename.dfy`: the rename run.
  - Start-up: the configuration gate.
  - Deciding a file: eligibility, then choosing the name.
  - Pure step functions over a `State` value. These specify the run and carry the accounting lemmas.
  - The class `DumpRun`: the script's module-level counters, log and directory contents as fields. Its methods are proved to follow the step functions.
- `log_strip.dfy`:
  - `rem_dbl_spaces` as a `while` loop, proved equal to a reference collapse;
  - the line scan, as a class `LogScan` and as pure step functions;
  - an in-place sort on arrays.
- `project_dir.dfy`:
  - name normalisation and the path join;
  - the ten-directory plan;
  - `add_dir` over a `Tree` class holding the set of existing directories;
  - the script with its argument and confirmation gates.

Inputs that come from the outside world are parameters:
- the argument vector;
- directory listings, as sequences of entries holding names and bytes;
- the digest function, uninterpreted;
- what each copy meets (an oracle indexed by the file counter);
- whether `float()` accepts a token (an oracle);
- the interpreter's major version;
- the answers typed at the prompts;
- the paths `makedirs` cannot create.

## Model

| member | source | states |
|---|---|---|
| PyText.Lower | dug-segd-dump-ffid-rename.py:101 | `str.lower()` keeps the length, turns each upper-case letter into its lower-case letter (code point + 32), leaves no upper-case letter and changes nothing else |
| PyText.LowerIdempotent | dug-segd-dump-ffid-rename.py:162 | lower-casing twice is lower-casing once |
| PyText.LowerKeeps | dug-segd-dump-ffid-rename.py:162 | text without upper-case letters is its own lower-case form |
| PyText.LStrip | dug-log-strip-001.py:62 | `lstrip()` drops exactly the leading whitespace and nothing else |
| PyText.RStrip | dug-log-strip-001.py:62 | `rstrip()` drops exactly the trailing whitespace and nothing else |
| PyText.Strip | dug-log-strip-001.py:62 | `strip()` gives a slice `s[i..j]` of the input with only whitespace before `i` and after `j`, and the slice neither starts nor ends with whitespace |
| PyText.TrimmedTwice | dug-log-strip-001.py:62 | dropping leading whitespace and then trailing whitespace leaves the input's middle slice with only whitespace around it |
| PyText.StripKeeps | dug-log-strip-001.py:62 | text already free of surrounding whitespace is unchanged by `strip()` |
| PyText.Split | dug-log-strip-001.py:62 | `split(sep)` yields at least one piece and no piece contains the separator |
| PyText.JoinSplit | dug-log-strip-001.py:62 | joining the pieces of `split(sep)` with `sep` gives the text back |
| PyText.SplitFirst | dug-segd-dump-ffid-rename.py:138 | the first piece of a split is everything before the first separator |
| PyText.StartsWith | dug-segd-dump-ffid-rename.py:130 | (definition) `str.startswith(p)`: `p` is the prefix of the text of its length |
| PyText.Contains | dug-log-strip-001.py:64 | (definition) `p in s` and `re.search(p, s)` for a pattern without special characters, by scanning start positions; `ContainsAt` gives its meaning |
| PyText.ContainsAt | dug-log-strip-001.py:64 | `p` is found in `s` iff it is the slice of `s` at some offset |
| PyText.Remove | dug-log-strip-001.py:66 | `replace(',', '')` leaves no comma, keeps every other character with its multiplicity, and shortens the text by the number of commas |
| PyText.RemoveAppend | dug-log-strip-001.py:66 | removal works piece by piece, so the kept characters stay in their order |
| PyText.PyInt | dug-segd-dump-ffid-rename.py:138-142 | (definition) `int()` of a text: surrounding whitespace stripped, an optional sign, then a non-empty digit string, else `None` where Python raises; `PyIntDigits` and `PyIntFormatInt` give its meaning |
| PyText.PyIntDigits | dug-log-strip-001.py:72-73 | `int()` of a non-empty digit string is its decimal value |
| PyText.FormatNat | dug-segd-dump-ffid-rename.py:167 | `str(n)` is a digit string that reads back to `n` and has no leading zero (`0` is the single digit `0`) |
| PyText.PyIntFormatInt | dug-segd-dump-ffid-rename.py:167 | `int(str(i)) == i` for every integer |
| PyText.FormatNatLength | dug-segd-dump-ffid-rename.py:167 | a number below 10^k has at most k decimal digits |
| PyText.DigitsValueAppend | dug-segd-dump-ffid-rename.py:167 | digits put in front weigh by 10 to the length of what follows |
| PyText.Repeat | dug-segd-dump-ffid-rename.py:163 | the fill is `n` copies of the fill character |
| PyText.PadLeft | dug-segd-dump-ffid-rename.py:163 | `'{:c>w}'` right-aligns in a field `w` wide, fills on the left with `c`, and never cuts a longer text |
| PyText.ZeroPadValue | dug-segd-dump-ffid-rename.py:167 | zero-padding a digit string keeps it a digit string with the same value |
| PyText.ZerosValue | dug-segd-dump-ffid-rename.py:167 | a run of zeros is a digit string of value 0 |
| SegdHeader.HexChar | dug-segd-dump-ffid-rename.py:75 | a nibble renders as one lower-case hex digit |
| SegdHeader.HexCharValue | dug-segd-dump-ffid-rename.py:84 | a character reads as a value below 16, and a hex digit reads back to the nibble that renders as it |
| SegdHeader.HexCharRoundTrip | dug-segd-dump-ffid-rename.py:84 | reading a rendered nibble gives the nibble |
| SegdHeader.PyByteHex | dug-segd-dump-ffid-rename.py:75 | `hex(b)[2:].rjust(2,'0')` (and `.zfill(2)`) is the high nibble digit then the low nibble digit, for every byte |
| SegdHeader.HexString | dug-segd-dump-ffid-rename.py:71-76 | the rendering has two lower-case hex digits per byte |
| SegdHeader.HexStringAt | dug-segd-dump-ffid-rename.py:74-75 | byte `i` sits at positions `2i` (high nibble) and `2i+1` (low nibble) |
| SegdHeader.UnHexSnoc | dug-segd-dump-ffid-rename.py:71-76 | two more digits read back as one more byte after those of the text before them |
| SegdHeader.UnHexHexString | dug-segd-dump-ffid-rename.py:71-76 | the rendering loses nothing: reading it back gives the bytes |
| SegdHeader.DecodeFfidExample | dug-segd-dump-ffid-rename.py:71-76 | bytes `0x00,0x0F` render as `000f`; one byte gives two characters |
| SegdHeader.DecodeFfid | dug-segd-dump-ffid-rename.py:71-76 | the accumulation loop returns the hex rendering of the bytes; under Python 3 a non-empty input raises (`None`) |
| SegdHeader.HexValueIsBigEndian | dug-segd-dump-ffid-rename.py:82-84 | parsing the hex rendering as base 16 gives the big-endian value of the bytes |
| SegdHeader.BigEndian | dug-segd-dump-ffid-rename.py:80-84 | (definition) the bytes read as one base-256 number, most significant first; `HexValueIsBigEndian` ties it to the hex text and `BigEndianBound` bounds it |
| SegdHeader.ParseHexInt | dug-segd-dump-ffid-rename.py:84 | (definition) `int(s, 16)` on the only texts `decode_effid` builds, lower-case hex digits: their base-16 value, or `None` for the empty text, where Python raises; other inputs Python accepts (`"FF"`, `" ff"`, `"0xff"`) are outside this definition |
| SegdHeader.ParseHexIntHexString | dug-segd-dump-ffid-rename.py:82-84 | `int(..., 16)` of a non-empty rendering reads back the big-endian value of the bytes; the empty rendering raises |
| SegdHeader.BigEndianBound | dug-segd-dump-ffid-rename.py:157 | n bytes give a value below 256^n; three bytes at most 2^24 - 1 |
| SegdHeader.DecodeEffidExample | dug-segd-dump-ffid-rename.py:78-85 | bytes `0x00,0x00,0x7B` give 123 |
| SegdHeader.DecodeEffid | dug-segd-dump-ffid-rename.py:78-85 | the loop returns the big-endian value of the bytes; an empty slice makes `int('',16)` raise (`None`) |
| FfidRename.Configure | dug-segd-dump-ffid-rename.py:95-115 | the run is refused iff argv does not hold 1 or 2 arguments, the line directory is missing, the lower-cased checksum name is not one of the four, or the log file exists; the default is sha256; only the last condition gives the log-exists message |
| FfidRename.RecorderNameEligible | dug-segd-dump-ffid-rename.py:138-146 | every recorder name `%08d.dump` for 0 < n < 10^8 is eligible at any size other than 0 and 16384 |
| FfidRename.IsReel | dug-segd-dump-ffid-rename.py:130 | (definition) an entry is walked iff its name has eight characters, starts with `REEL` and it is a directory; `StepEntry` skips every other entry |
| FfidRename.FileNumber | dug-segd-dump-ffid-rename.py:138-142 | (definition) `int()` of the text before the first `.`, or -1 where `int()` raises; `RecorderNameEligible` reads the number back from recorder names |
| FfidRename.Eligible | dug-segd-dump-ffid-rename.py:146 | (definition) a member is processed iff its name has 13 characters and ends in `.dump`, its number is positive, and its size is neither 0 nor 16384; `RecorderNameEligible` shows which names qualify |
| FfidRename.PrimaryField | dug-segd-dump-ffid-rename.py:152-155 | the primary field has at most four characters, all lower-case hex digits; under Python 2, with two header bytes, it reads back to exactly those bytes |
| FfidRename.ExpandedField | dug-segd-dump-ffid-rename.py:156-159 | the sentinel -99 appears iff the file has 32 bytes or fewer; otherwise the value is within three bytes (0 to 2^24 - 1) |
| FfidRename.EffidDigits | dug-segd-dump-ffid-rename.py:167 | an expanded number has at most eight decimal digits |
| FfidRename.Destination | dug-segd-dump-ffid-rename.py:150-172 | every destination name is eight characters plus `.ffid`, thirteen in all |
| FfidRename.Select | dug-segd-dump-ffid-rename.py:162-172 | the primary value is used iff its lower-case form is not `ffff`; otherwise the expanded value iff it is not -99; otherwise nothing; a name is at least 13 characters and ends `.ffid` |
| FfidRename.PrimaryName | dug-segd-dump-ffid-rename.py:162-165 | a two-byte primary number other than `ffff` names the file `0000<4 hex digits>.ffid` |
| FfidRename.ExpandedName | dug-segd-dump-ffid-rename.py:166-169 | an expanded number names the file with exactly eight decimal digits that `int()` reads back to the number |
| FfidRename.PrimaryExample | dug-segd-dump-ffid-rename.py:162-165 | a primary value `000f` names the file `0000000f.ffid`, whatever the expanded value |
| FfidRename.ExpandedExample | dug-segd-dump-ffid-rename.py:162-169 | a primary value `FFFF` (any case) with expanded value 123 names the file `00000123.ffid` |
| FfidRename.UndecodableExample | dug-segd-dump-ffid-rename.py:162-172 | `ffff` with the -99 sentinel names nothing: the file cannot be decoded |
| FfidRename.HeaderFields | dug-segd-dump-ffid-rename.py:150-159 | under Python 2 the primary field is the hex of bytes 0-1 (of all bytes, for a shorter file); for a file longer than 32 bytes the expanded field is the big-endian value of bytes 32-34, or of those of them the file has |
| FfidRename.HeaderPrimary | dug-segd-dump-ffid-rename.py:152-155 | under Python 2 the primary field is the hex of the first two bytes, or of all bytes of a shorter file |
| FfidRename.HeaderPrimaryLong | dug-segd-dump-ffid-rename.py:152-155 | with at least two bytes the primary field is the hex of bytes 0-1 |
| FfidRename.HeaderExpanded | dug-segd-dump-ffid-rename.py:156-159 | a file longer than 32 bytes gives the big-endian value of bytes 32-34, or of those of them it has |
| FfidRename.Python3UsesExpanded | dug-segd-dump-ffid-rename.py:152-159 | under Python 3 a non-empty file is always named from the expanded number, and is undecodable iff it has 32 bytes or fewer |
| FfidRename.ExtendsTransitive | dug-segd-dump-ffid-rename.py:116-209 | "nothing goes backwards" composes across steps |
| FfidRename.CopyAndVerify | dug-segd-dump-ffid-rename.py:178-205 | exactly one outcome is logged; a raising copy logs a copy error and leaves behind what it wrote; a completed copy holds the written bytes; a raising read-back logs a copy error unless the checksum is `none`; otherwise equal checksums count good and differing ones bad; with `none` the copy is never bad |
| FfidRename.ChecksumsMatch | dug-segd-dump-ffid-rename.py:184-197 | identical source and copy always match, whatever the checksum kind; with `none` every copy matches |
| FfidRename.Decided | dug-segd-dump-ffid-rename.py:162-205 | an undecodable header only counts the file; an existing destination logs FILE EXISTS and changes nothing; a new destination name is copied to, exactly as `CopyAndVerify` says |
| FfidRename.StepFile | dug-segd-dump-ffid-rename.py:136-209 | a member is counted unexpected iff it is ineligible, and then nothing is read or written; an eligible one is decided by the name its header gives |
| FfidRename.FoldFiles | dug-segd-dump-ffid-rename.py:136-209 | walking members only writes files under names that now exist |
| FfidRename.WalkReel | dug-segd-dump-ffid-rename.py:130-212 | walking a reel only writes files under names that now exist |
| FfidRename.StepEntry | dug-segd-dump-ffid-rename.py:129-130 | a non-reel entry leaves the state exactly as it was; the files written stay among the names present |
| FfidRename.FoldEntries | dug-segd-dump-ffid-rename.py:129-212 | walking the listing only writes files under names that now exist |
| FfidRename.EmitAccounted | dug-segd-dump-ffid-rename.py:116-209 | logging an outcome keeps every counter equal to the number of logged events of its outcomes |
| FfidRename.TallySnoc | dug-segd-dump-ffid-rename.py:116-209 | logging one event adds one to the tally of its own outcome and to no other |
| FfidRename.StartConsistent | dug-segd-dump-ffid-rename.py:116-127 | the counters start at zero, in step with the log |
| FfidRename.StepFileConsistent | dug-segd-dump-ffid-rename.py:136-209 | one member keeps the counters in step with the log and no two copies share a name |
| FfidRename.FoldFilesConsistent | dug-segd-dump-ffid-rename.py:136-209 | a reel's members keep the counters in step with the log and the copies distinct; no counter decreases and nothing written is lost |
| FfidRename.StepFileCounts | dug-segd-dump-ffid-rename.py:146-209 | each member is counted once, as a file or as unexpected; the reel counter does not move |
| FfidRename.FoldFilesCounts | dug-segd-dump-ffid-rename.py:136-209 | a reel's members are each counted exactly once, as a file or as unexpected |
| FfidRename.EmitOtherConsistent | dug-segd-dump-ffid-rename.py:133-134 | a log line that is not a copy keeps the run consistent |
| FfidRename.WalkReelConsistent | dug-segd-dump-ffid-rename.py:130-212 | a reel keeps the counters in step with the log and the copies distinct, and only adds to the run |
| FfidRename.WalkReelCounts | dug-segd-dump-ffid-rename.py:130-212 | a reel adds one to the reel counter and counts each of its members once |
| FfidRename.FoldEntriesConsistent | dug-segd-dump-ffid-rename.py:129-212 | walking the listing keeps the counters in step with the log and the copies distinct, and only adds to the run |
| FfidRename.FoldEntriesCounts | dug-segd-dump-ffid-rename.py:129-212 | the reel counter counts the reels of the listing and every member of every reel is counted once |
| FfidRename.RunCounts | dug-segd-dump-ffid-rename.py:116-220 | a whole run reports `#REELS` equal to the number of reels and `#FILES` plus `#UNEXPECTED FILE` equal to the number of reel members |
| FfidRename.RunGuarantees | dug-segd-dump-ffid-rename.py:116-223 | `fcount = good + bad + not_copied + #undecodable`; `fcount + unexpected` is the number of reel members; no pre-existing name is written; no two sources go to one name; banner first, summary last |
| FfidRename.RunSpec | dug-segd-dump-ffid-rename.py:116-223 | (definition) the run: the start state, the entries of the line directory in listing order, then the summary; `RunGuarantees` and `RunCounts` state what it promises |
| FfidRename.SecondRunRefused | dug-segd-dump-ffid-rename.py:113-115 | once a run has created its log file, the same command is refused with the log-exists message |
| FfidRename.ChooseName | dug-segd-dump-ffid-rename.py:150-172 | the header read, the two decoders with their sentinels, and the choice give `Destination` of the file's bytes |
| FfidRename.DumpRun.constructor | dug-segd-dump-ffid-rename.py:116-127 | the six counters are zero and the banner is logged |
| FfidRename.DumpRun.CopyVerify | dug-segd-dump-ffid-rename.py:178-205 | the copy-and-verify block updates counters, files and log as `CopyAndVerify` says |
| FfidRename.DumpRun.WriteFile | dug-segd-dump-ffid-rename.py:181 | a written file exists under its name with its bytes; nothing else changes |
| FfidRename.DumpRun.NoteCopyError | dug-segd-dump-ffid-rename.py:203-205 | a failed copy adds one to `not_copied` and logs ERROR DURING COPY |
| FfidRename.DumpRun.NoteCopied | dug-segd-dump-ffid-rename.py:197-202 | a completed copy adds one to `good_chksum` or `bad_chksum` as the checksums agree, and logs it |
| FfidRename.DumpRun.CopyFailed | dug-segd-dump-ffid-rename.py:179-205 | a `copy2` that raises leaves what it wrote and counts the file as not copied, as `CopyAndVerify` says |
| FfidRename.DumpRun.CopyFinished | dug-segd-dump-ffid-rename.py:181-205 | a completed `copy2` is followed by the checksum comparison, or by the not-copied count where reading for the digest raises, as `CopyAndVerify` says |
| FfidRename.DumpRun.Settle | dug-segd-dump-ffid-rename.py:170-205 | the undecodable, exists and copy branches update the state as `Decided` says |
| FfidRename.DumpRun.ProcessFile | dug-segd-dump-ffid-rename.py:136-209 | one member updates the state as `StepFile` says |
| FfidRename.DumpRun.CountFile | dug-segd-dump-ffid-rename.py:147 | an eligible file adds one to `fcount` before its header is read |
| FfidRename.DumpRun.NoteUnexpected | dug-segd-dump-ffid-rename.py:207-209 | an ineligible member adds one to `unexpected_file` and is logged as skipped |
| FfidRename.DumpRun.ProcessMembers | dug-segd-dump-ffid-rename.py:136-209 | the loop over a reel's members updates the state as `FoldFiles` says |
| FfidRename.DumpRun.OpenReel | dug-segd-dump-ffid-rename.py:131-134 | a reel adds one to `rcount` and logs its start |
| FfidRename.DumpRun.CloseReel | dug-segd-dump-ffid-rename.py:210-212 | the end of a reel is logged and no counter moves |
| FfidRename.DumpRun.ProcessReel | dug-segd-dump-ffid-rename.py:130-212 | a reel is counted, its members walked and its end logged, as `WalkReel` says |
| FfidRename.DumpRun.ProcessLine | dug-segd-dump-ffid-rename.py:129-212 | the loop over the listing follows `FoldEntries` and keeps the run consistent and growing |
| FfidRename.DumpRun.Finish | dug-segd-dump-ffid-rename.py:213-223 | the summary logs the final counters |
| FfidRename.RunDumpRename | dug-segd-dump-ffid-rename.py:95-223 | a refused start writes nothing; a run follows `RunSpec`, satisfies the counter equations and creates the log file, so the same command is then refused with `LogExists` |
| LogStrip.ReplaceDouble | dug-log-strip-001.py:51 | one `replace('  ', ' ')` pass never lengthens the text and keeps its first character |
| LogStrip.Collapse | dug-log-strip-001.py:47-52 | the reference collapse keeps the first character |
| LogStrip.ReplaceDoubleShortens | dug-log-strip-001.py:49-51 | a pass shortens the text iff it holds a double space, and leaves it unchanged otherwise |
| LogStrip.NoDoubleSpaceTail | dug-log-strip-001.py:47-52 | text is free of double spaces iff its tail is and it does not open with one |
| LogStrip.CollapseNoDouble | dug-log-strip-001.py:47-52 | collapsed text has no two consecutive spaces |
| LogStrip.CollapseFixes | dug-log-strip-001.py:47-52 | text without a double space is returned unchanged |
| LogStrip.CollapseIdempotent | dug-log-strip-001.py:47-52 | collapsing twice is collapsing once |
| LogStrip.CollapseConsSpace | dug-log-strip-001.py:47-52 | a space put in front merges with a leading space |
| LogStrip.CollapseReplaceDouble | dug-log-strip-001.py:49-51 | a replacement pass does not change what the text collapses to |
| LogStrip.CollapseKeepsNonSpaces | dug-log-strip-001.py:47-52 | the non-space characters keep their order |
| LogStrip.RemDblSpaces | dug-log-strip-001.py:47-52 | the fixpoint loop terminates, and its result is every maximal run of spaces collapsed to one, with no double space left |
| LogStrip.Tokens | dug-log-strip-001.py:62 | the tokens hold no space, and joined with single spaces they give the stripped line back |
| LogStrip.ShotLag | dug-log-strip-001.py:69-73 | a record is made iff token 4 splits on `=` into two parts, the second a non-empty digit string, and `sp > 0`; fewer than four tokens raise |
| LogStrip.ShotStep | dug-log-strip-001.py:64-67 | a "Processing shot" line raises iff it has fewer than four tokens, token 4 is not an integer, or token 6 is missing or not a float; otherwise it sets `sp` to `int()` of token 4 and appends `(sp, token 6)`; other lines change nothing |
| LogStrip.LagStep | dug-log-strip-001.py:69-73 | a "shotsBehind" line raises iff it has fewer than four tokens; otherwise it appends exactly the record `ShotLag` makes, if any; `shotsBehind` grows by at most one record, carrying the current positive `sp`; nothing else changes |
| LogStrip.ParsingStep | dug-log-strip-001.py:75-78 | a "Parsing 10 files took average" line raises iff token 8 is missing or not a float; otherwise it appends `(sp, token 8)`; others change nothing |
| LogStrip.ProcTenStep | dug-log-strip-001.py:81-84 | a "Processing 10 shots took average" line raises iff token 8 is missing or not a float; otherwise it appends `(sp, token 8)`; others change nothing |
| LogStrip.ScanTokensEffect | dug-log-strip-001.py:60-84 | `sp` moves only on "Processing shot"; each float series grows by one exactly when its pattern is found; records are only appended; one line may feed several series |
| LogStrip.ScanTokens | dug-log-strip-001.py:64-84 | (definition) the four checks in source order, each on the state the previous one left, `None` where one raises; `ScanTokensEffect` states the effect |
| LogStrip.ScanTokensShotsBehind | dug-log-strip-001.py:69-73 | `shotsBehind` grows by at most one record per line, only on a "shotsBehind" line, with the current positive `sp` and a non-negative count; earlier records stay |
| LogStrip.ScanTokensPositive | dug-log-strip-001.py:60-84 | the checks on one line keep every `shotsBehind` record positive |
| LogStrip.ScanLogShotsBehind | dug-log-strip-001.py:54-85 | every `shotsBehind` record of the log carries a positive shot point and a non-negative count |
| LogStrip.ScanLineShotsBehind | dug-log-strip-001.py:69-73 | one line keeps every `shotsBehind` record positive |
| LogStrip.ScanLine | dug-log-strip-001.py:60-62 | (definition) one line: collapse the spaces, split into tokens, run the checks; `ScanLineShotsBehind` states what it keeps |
| LogStrip.ScanLog | dug-log-strip-001.py:54-85 | (definition) the lines in file order from `sp = 0` and four empty lists; `ScanLogShotsBehind` and `ScanLogStops` state what it promises |
| LogStrip.ScanLogStops | dug-log-strip-001.py:59-85 | a line that raises ends the scan; later lines cannot undo it |
| LogStrip.LogScan.constructor | dug-log-strip-001.py:54-58 | `sp` starts at 0 with four empty lists |
| LogStrip.LogScan.ShotCheck | dug-log-strip-001.py:64-67 | the "Processing shot" check updates the fields as `ShotStep` says |
| LogStrip.LogScan.LagCheck | dug-log-strip-001.py:69-73 | the `shotsBehind` check updates the fields as `LagStep` says |
| LogStrip.LogScan.ParsingCheck | dug-log-strip-001.py:75-78 | the parsing check updates the fields as `ParsingStep` says |
| LogStrip.LogScan.ProcTenCheck | dug-log-strip-001.py:81-84 | the processing check updates the fields as `ProcTenStep` says |
| LogStrip.LogScan.ScanOne | dug-log-strip-001.py:60-84 | one loop body follows `ScanLine` |
| LogStrip.ScanLogNext | dug-log-strip-001.py:59-85 | one more line continues the scan from the state the earlier lines left, or stays stopped |
| LogStrip.ParseLog | dug-log-strip-001.py:54-85 | the main loop computes `ScanLog`: the state after all lines, or `None` where a line raises |
| LogStrip.SwapDown | dug-log-strip-001.py:103-106 | a swap in the insertion pass keeps the records and the order around the moving record |
| LogStrip.InsertDone | dug-log-strip-001.py:103-106 | once the moving record stops, the prefix is sorted |
| LogStrip.InsertAt | dug-log-strip-001.py:103-106 | one insertion extends the sorted prefix by one and keeps the records |
| LogStrip.SortInPlace | dug-log-strip-001.py:103-106 | the in-place sort leaves the array sorted and a permutation of what it held |
| LogStrip.SortSeries | dug-log-strip-001.py:98-106 | a series sorted through an array is sorted and a permutation of the records |
| LogStrip.StripLog | dug-log-strip-001.py:54-106 | succeeds iff the scan does and every shot point and count fits numpy's 64-bit integer (the conversion raises otherwise); each series is then a permutation of the scanned records, ordered by `sp` (`shotsBehind` ties by count) |
| ProjectDir.Underscores | create-project-dir.py:116-118 | `replace(' ', '_')` leaves no space and moves nothing else |
| ProjectDir.Normalize | create-project-dir.py:116-118 | a normalised answer keeps its length, has no space and no upper-case letter, and every other character is lower-cased in place |
| ProjectDir.NormalizeIdempotent | create-project-dir.py:116-118 | normalising twice is normalising once |
| ProjectDir.DropLast4 | create-project-dir.py:120 | `hostname[:-4]` is all but the last four characters, or empty |
| ProjectDir.Join | create-project-dir.py:120 | (definition) `posixpath.join` of two parts; `JoinRelative` gives its meaning for a relative second part |
| ProjectDir.JoinRelative | create-project-dir.py:120 | joining a relative name to a directory that does not end in `/` puts exactly one `/` between them |
| ProjectDir.ProjDir | create-project-dir.py:120 | (definition) the project path from the root, the host name, `contracts` and the three answers; `ProjDirShape` gives its shape |
| ProjectDir.ProjDirShape | create-project-dir.py:120 | on a POSIX root the project path is `/<host without last 4>/contracts/<job>-<client>-<survey>`, each part stripped |
| ProjectDir.Plan | create-project-dir.py:129-152 | (definition) the ten paths passed to `add_dir`, in call order; `PlanShape` and `PlanLayout` state them |
| ProjectDir.PlanLayout | create-project-dir.py:129-152 | the plan, call by call as the script spells the calls: the project directory, its three children, then the six children of `survey-data` |
| ProjectDir.PlanShape | create-project-dir.py:127-152 | exactly ten `add_dir` calls: the project directory; `<job>-RTQC`, `<job>-PROD` (unstripped job) and `survey-data` under it; then `segd.segd`, `p190.nav`, `edit`, `vel`, `tidal`, `segy` under `survey-data`, in that order |
| ProjectDir.Ancestors | create-project-dir.py:90 | `makedirs(p)` leaves `p` and every prefix of `p` that ends before a `/` existing |
| ProjectDir.AncestorsOnly | create-project-dir.py:90 | `makedirs(p)` creates nothing but `p` and the prefixes of `p` that end before a `/` |
| ProjectDir.AddDirSpec | create-project-dir.py:84-93 | an existing path leaves the tree unchanged; otherwise the path and all its parents exist afterwards and nothing else is created, or the script ends |
| ProjectDir.ApplyPlan | create-project-dir.py:127-152 | after a complete run every planned path exists; a run ends only at a path `makedirs` cannot create |
| ProjectDir.ApplyPlanCreatesOnlyPlanned | create-project-dir.py:127-152 | only planned paths and their parents are ever created |
| ProjectDir.ApplyPlanIdempotent | create-project-dir.py:84-87 | running the plan over a tree that already has every planned path changes nothing |
| ProjectDir.SecondRunCreatesNothing | create-project-dir.py:84-87 | after a complete run, a second run creates nothing and completes |
| ProjectDir.Tree.constructor | create-project-dir.py:84-93 | the tree starts with the given directories |
| ProjectDir.Tree.AddDir | create-project-dir.py:84-93 | `add_dir` updates the tree as `AddDirSpec` says |
| ProjectDir.ApplyPlanUnfold | create-project-dir.py:129-152 | the rest of the plan is one `add_dir` and then the rest after it |
| ProjectDir.AddPlanned | create-project-dir.py:129-152 | each call keeps the outcome of the whole plan unchanged, or is where the run ends |
| ProjectDir.ArgvGate | create-project-dir.py:109-113 | any argument stops the script before a prompt: `-h`/`--help` alone gives the help, anything else the invalid-option message |
| ProjectDir.Confirmed | create-project-dir.py:127 | (definition) `carry_on.strip().lower() == 'y'`; `ConfirmedIff` gives its meaning |
| ProjectDir.ConfirmedIff | create-project-dir.py:127 | the answer confirms iff, once stripped, it is `y` or `Y` |
| ProjectDir.CreateProjectDir | create-project-dir.py:109-159 | arguments or a missing confirmation change nothing; otherwise the tree and the exit are those of the plan applied to the normalised answers |
| ProjectDir.MakeProjectDirs | create-project-dir.py:129-152 | the ten calls, in order, end as `ApplyPlan` over the plan |
| ProjectDir.MakeJobDirs | create-project-dir.py:131-139 | the `-RTQC`, `-PROD` and `survey-data` calls continue the plan |
| ProjectDir.MakeSurveyData | create-project-dir.py:140-152 | the six `survey-data` calls complete the plan |
| ProjectDir.MakeSurveyTail | create-project-dir.py:146-152 | the `vel`, `tidal` and `segy` calls complete the plan from its eighth call on |

## Left out

- Real I/O is not modelled.
  - Directory listings and file contents are inputs.
  - The listing order is whatever the input sequence holds.
  - Log lines are events, not formatted text.
  - Screen clearing, prompts, `socket.gethostname` and `time`/`datetime` are left out. Elapsed seconds appear in no event.
- Nothing of `hashlib` is modelled. The MD5, SHA-1 and SHA-256 digests are one uninterpreted function of the bytes.
- `shutil.copy2` metadata is not modelled. A copy is an oracle outcome: it raised (maybe leaving part of a file), or it completed with some bytes, after which reading for the digest may raise.
- `os.path.getsize` of a reel member that is itself a directory is not modelled. A member is always a file of bytes.
- The read of the first 35 bytes, which sits outside any `try`, is not modelled raising.
- `last_fnum` (dug-segd-dump-ffid-rename.py:135, 206) is written but never read, so it is not modelled.
- Python 3 behaviour of `decode_ffid`: `struct.unpack('B', ...)` on an `int` raises. This is modelled as the `'ffff'` fallback, selected by an explicit interpreter parameter.
- Checksum fallback: the help text says a mistyped checksum name falls back to sha256. The code refuses it with the usage text, and the model follows the code.
- `int()` is modelled on ASCII only. It does not accept underscores or non-ASCII digits.
- `float()` is an oracle: a predicate on the comma-free token. Float series records keep that token, not a floating-point value.
- LogStrip.StripLog: numpy's default integer is taken as 64 bits, as on Linux and macOS. With numpy before 2.0 on Windows it is 32 bits, and the conversion would raise above 2^31 - 1 instead.
- PyText.Lower: only ASCII letters are lower-cased, as Python 2 `str.lower()` does. Python 3 also maps other letters, e.g. `'Ø'` to `'ø'`, and `'İ'` becomes two characters.
- PyText.Strip: whitespace is the ASCII set `str.isspace()` accepts. Python 3 also strips Unicode spaces such as U+00A0. `PyText.LStrip`, `PyText.RStrip` and `PyText.PyInt` inherit this.
- ProjectDir.Normalize: the answers are normalised with the ASCII `Lower`. Under Python 3 a non-ASCII letter may change, and `'İ'` would lengthen the answer, so "keeps its length" holds only for ASCII text.
- LogStrip.StripLog: the three float series are stated sorted by shot point only. numpy also orders records with equal shot points by value, which would need float comparison.
- LogStrip.SortSeries: the sort used is an insertion sort. numpy's algorithm is not modelled, and its order among fully equal records is not stated.
- Everything after the sort in `dug-log-strip-001.py` is not modelled: plots, histograms, means, standard deviations and rates. The unused `logout`/`outname` are also left out.
- The Windows drive-letter root in create-project-dir.py is not modelled. The root is a parameter, and `posixpath.join` is the join modelled.
- `os.path.exists` is true for files as well as directories. The model keeps one set of existing paths.
- A `makedirs` that fails after creating some parents is modelled as changing nothing.
- The failure message of `add_dir` is not modelled. Its `'{d}'.format(dname)` raises `KeyError`, and the model records only that the script ends there.
