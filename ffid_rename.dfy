/** `dug-segd-dump-ffid-rename.py`: walks the `REELnnnn` directories of a
    seismic line directory, reads the field file number of each raw SEG-D
    dump file from its header, copies the file into the line directory as
    `<8-character id>.ffid` (never over an existing name), verifies the copy
    by checksum, and keeps six outcome counters and an append-only log.

    The run is specified by pure step functions over a `State` value
    (`StepFile`, `WalkReel`, `FoldEntries`, `RunSpec`); the class `DumpRun`
    holds the same state as mutable fields, the way the script keeps it in
    module-level variables, and its methods are proved to follow the step
    functions. */
module FfidRename {
  import opened Wrappers
  import opened PyText
  import opened SegdHeader

  // ------------------------------------------------------------ start-up

  datatype Checksum = NoSum | Md5 | Sha1 | Sha256

  /** The accepted (already lower-cased) checksum names. */
  function ParseChecksum(s: string): Option<Checksum>
  {
    if s == "none" then Some(NoSum)
    else if s == "md5" then Some(Md5)
    else if s == "sha1" then Some(Sha1)
    else if s == "sha256" then Some(Sha256)
    else None
  }

  datatype Config = Config(line: string, kind: Checksum, interp: Interp)

  /** Why the script stops before doing anything: the usage text, or the
      message that the log file already exists. */
  datatype Abort = Usage | LogExists

  function LogName(line: string): string
  {
    line + ".dug-dump.log"
  }

  /** The checks made before the first log line: `argv` holds the program
      name and the arguments, `cwdDirs` the directories and `cwdNames` every
      entry of the working directory.  A checksum name outside the four is
      refused with the usage text; it does not fall back to sha256. */
  function Configure(argv: seq<string>, interp: Interp, cwdDirs: set<string>, cwdNames: set<string>)
    : (r: Result<Config, Abort>)
    ensures r.Failure? <==>
      || (|argv| != 2 && |argv| != 3)
      || argv[1] !in cwdDirs
      || (|argv| == 3 && ParseChecksum(Lower(argv[2])).None?)
      || LogName(argv[1]) in cwdNames
    ensures r.Success? ==> r.value.line == argv[1] && r.value.interp == interp
    ensures r.Success? && |argv| == 2 ==> r.value.kind == Sha256
    ensures r.Success? && |argv| == 3 ==> ParseChecksum(Lower(argv[2])) == Some(r.value.kind)
    ensures r == Failure(LogExists) <==>
      && (|argv| == 2 || |argv| == 3) && argv[1] in cwdDirs
      && (|argv| == 2 || ParseChecksum(Lower(argv[2])).Some?)
      && LogName(argv[1]) in cwdNames
  {
    if |argv| != 2 && |argv| != 3 then Failure(Usage)
    else
      var kindName := if |argv| == 3 then Lower(argv[2]) else "sha256";
      if argv[1] !in cwdDirs || ParseChecksum(kindName).None? then Failure(Usage)
      else if LogName(argv[1]) in cwdNames then Failure(LogExists)
      else Success(Config(argv[1], ParseChecksum(kindName).value, interp))
  }

  // ------------------------------------------------------- the directory

  /** A member of a reel directory: its name and its bytes (its size is
      their number). */
  datatype FileEntry = FileEntry(name: string, data: seq<Byte>)

  /** An entry of the line directory, with the listing of its members when
      it is a directory. */
  datatype DirEntry = DirEntry(name: string, isDir: bool, members: seq<FileEntry>)

  /** Only eight-character directories named `REEL...` are walked. */
  predicate IsReel(e: DirEntry)
  {
    |e.name| == 8 && StartsWith(e.name, "REEL") && e.isDir
  }

  /** The size of a header-only dump file, which is skipped. */
  const EmptyHeaderSize := 16384

  /** `int(fname.split('.')[0])`, or -1 where `int()` raises. */
  function FileNumber(name: string): int
  {
    match PyInt(Split(name, '.')[0])
    case Some(v) => v
    case None => -1
  }

  /** A reel member is processed iff its name is 13 characters long and
      ends in `.dump`, the number before its first `.` is positive, and its
      size is neither 0 nor 16384. */
  predicate Eligible(name: string, size: nat)
  {
    |name| == 13 && EndsWith(name, ".dump") && FileNumber(name) > 0 && size > 0 && size != EmptyHeaderSize
  }

  /** The recorder's names, `%08d.dump`, are eligible for every positive
      number below 10^8 and every size other than 0 and 16384. */
  lemma RecorderNameEligible(n: nat, size: nat)
    requires 0 < n < Pow(10, 8) && size > 0 && size != EmptyHeaderSize
    ensures Eligible(PadLeft(FormatNat(n), 8, '0') + ".dump", size)
  {
    var digits := FormatNat(n);
    FormatNatLength(n, 8);
    ZeroPadValue(digits, 8);
    var padded := PadLeft(digits, 8, '0');
    var name := padded + ".dump";
    assert name[..8] == padded;
    assert '.' !in padded by {
      forall i | 0 <= i < 8 ensures padded[i] != '.' {
        assert IsDigit(padded[i]);
      }
    }
    SplitFirst(name, '.', 8);
    PyIntDigits(padded);
    assert FileNumber(name) == DigitsValue(padded) == n;
    assert |name| == 13 && name[|name| - 5..] == ".dump";
  }

  // --------------------------------------------------- choosing the name

  /** The first 35 bytes, as `f.read(35)` returns them. */
  function Head35(data: seq<Byte>): seq<Byte>
  {
    if |data| <= 35 then data else data[..35]
  }

  /** `decode_ffid(bdata[0:2])`, or the sentinel `'ffff'` where it raises. */
  function PrimaryField(bdata: seq<Byte>, interp: Interp): (r: string)
    ensures |r| <= 4
    ensures forall k :: 0 <= k < |r| ==> IsHexChar(r[k])
    ensures interp == Py2 && |bdata| >= 2 ==> UnHex(r) == bdata[..2]
  {
    var block1 := if |bdata| <= 2 then bdata else bdata[..2];
    UnHexHexString(block1);
    if interp == Py3 && block1 != [] then "ffff" else HexString(block1)
  }

  /** `decode_effid(bdata[32:35])`, or the sentinel -99 where it raises
      (an empty slice, for a file of 32 bytes or fewer). */
  function ExpandedField(bdata: seq<Byte>): (r: int)
    ensures r == -99 <==> |bdata| <= 32
    ensures r != -99 ==> 0 <= r <= 0xFF_FFFF
  {
    var block2 := if |bdata| <= 32 then [] else if |bdata| <= 35 then bdata[32..] else bdata[32..35];
    if block2 == [] then -99
    else
      BigEndianBound(block2);
      assert Pow(256, |block2|) <= 0x100_0000 by {
        assert Pow(256, 1) == 256 && Pow(256, 2) == 256 * 256 && Pow(256, 3) == 256 * 256 * 256;
      }
      BigEndian(block2)
  }

  /** The destination name and whether it came from the expanded number. */
  datatype Dest = Dest(name: string, fallback: bool)

  /** The primary number unless it reads `ffff`, else the expanded number
      unless it is the sentinel -99, else nothing; left-padded with '0' to
      eight characters and suffixed `.ffid`. */
  function Select(ffid: string, effid: int): (r: Option<Dest>)
    ensures r.Some? && !r.value.fallback <==> Lower(ffid) != "ffff"
    ensures r.Some? && r.value.fallback <==> Lower(ffid) == "ffff" && effid != -99
    ensures r.None? <==> Lower(ffid) == "ffff" && effid == -99
    ensures r.Some? ==> |r.value.name| >= 13 && EndsWith(r.value.name, ".ffid")
  {
    if Lower(ffid) != "ffff" then Some(Dest(PadLeft(ffid, 8, '0') + ".ffid", false))
    else if effid != -99 then Some(Dest(PadLeft(FormatInt(effid), 8, '0') + ".ffid", true))
    else None
  }

  /** A three-byte expanded number has at most eight decimal digits. */
  lemma EffidDigits(effid: int)
    requires effid == -99 || 0 <= effid <= 0xFF_FFFF
    ensures effid != -99 ==> |FormatInt(effid)| <= 8
  {
    if effid != -99 {
      FormatNatLength(effid, 8);
    }
  }

  /** The destination chosen for a file's bytes. */
  function Destination(data: seq<Byte>, interp: Interp): (r: Option<Dest>)
    ensures r.Some? ==> |r.value.name| == 13 && EndsWith(r.value.name, ".ffid")
  {
    var bdata := Head35(data);
    var effid := ExpandedField(bdata);
    EffidDigits(effid);
    Select(PrimaryField(bdata, interp), effid)
  }

  /** A two-byte primary number that is not `ffff` names the file
      `0000<four hex digits>.ffid`. */
  lemma PrimaryName(block1: seq<Byte>, effid: int)
    requires |block1| == 2 && HexString(block1) != "ffff"
    ensures Select(HexString(block1), effid) == Some(Dest("0000" + HexString(block1) + ".ffid", false))
  {
    var h := HexString(block1);
    LowerKeeps(h);
    assert PadLeft(h, 8, '0') == "0000" + h;
  }

  /** An expanded number (at most 2^24 - 1, as three bytes give) names the
      file with exactly eight decimal digits that read back to the number. */
  lemma ExpandedName(effid: nat)
    requires effid <= 0xFF_FFFF
    ensures Select("ffff", effid).Some? && Select("ffff", effid).value.fallback
    ensures var name := Select("ffff", effid).value.name;
      |name| == 13 && name[8..] == ".ffid" && IsDigitString(name[..8]) && PyInt(name[..8]) == Some(effid)
  {
    assert Lower("ffff") == "ffff";
    var digits := FormatNat(effid);
    FormatNatLength(effid, 8);
    ZeroPadValue(digits, 8);
    var padded := PadLeft(digits, 8, '0');
    var name := padded + ".ffid";
    assert name[..8] == padded;
    PyIntDigits(padded);
  }

  /** `000f` names the file `0000000f.ffid`. */
  lemma PrimaryExample()
    ensures Select("000f", -99) == Some(Dest("0000000f.ffid", false))
  {
    assert Lower("000f") == "000f";
    var z := Repeat('0', 4);
    assert z == "0000";
    assert PadLeft("000f", 8, '0') == z + "000f";
    assert z + "000f" + ".ffid" == "0000000f.ffid";
  }

  /** An upper-case `FFFF` also falls back; 123 names the file `00000123.ffid`. */
  lemma ExpandedExample()
    ensures Select("FFFF", 123) == Some(Dest("00000123.ffid", true))
  {
    assert Lower("FFFF") == "ffff";
    assert FormatNat(12) == "12";
    assert FormatInt(123) == "123";
    var z := Repeat('0', 5);
    assert z == "00000";
    assert PadLeft("123", 8, '0') == z + "123";
    assert z + "123" + ".ffid" == "00000123.ffid";
  }

  /** Neither number: nothing is chosen. */
  lemma UndecodableExample()
    ensures Select("ffff", -99) == None
  {
    assert Lower("ffff") == "ffff";
  }

  /** Under Python 2 the primary number is the hex of the first two bytes
      (of all of them, for a shorter file), and the expanded one is the
      big-endian value of bytes 33-35, or of those of them the file has. */
  lemma HeaderFields(data: seq<Byte>)
    ensures |data| >= 2 ==> PrimaryField(Head35(data), Py2) == HexString(data[..2])
    ensures |data| < 2 ==> PrimaryField(Head35(data), Py2) == HexString(data)
    ensures |data| > 32 ==>
      ExpandedField(Head35(data)) == BigEndian(data[32..if |data| < 35 then |data| else 35])
  {
    HeaderPrimary(data);
    HeaderExpanded(data);
  }

  lemma HeaderPrimary(data: seq<Byte>)
    ensures |data| >= 2 ==> PrimaryField(Head35(data), Py2) == HexString(data[..2])
    ensures |data| < 2 ==> PrimaryField(Head35(data), Py2) == HexString(data)
  {
    if |data| >= 2 {
      HeaderPrimaryLong(data);
    }
  }

  lemma HeaderPrimaryLong(data: seq<Byte>)
    requires |data| >= 2
    ensures PrimaryField(Head35(data), Py2) == HexString(data[..2])
  {
    var h := Head35(data);
    assert h[..2] == data[..2];
    if |h| == 2 {
      assert h == h[..2];
    }
  }

  lemma HeaderExpanded(data: seq<Byte>)
    ensures |data| > 32 ==>
      ExpandedField(Head35(data)) == BigEndian(data[32..if |data| < 35 then |data| else 35])
  {
    var h := Head35(data);
    if |data| >= 35 {
      assert |h| == 35 && h[32..] == data[32..35];
      assert ExpandedField(h) == BigEndian(h[32..]);
    } else if |data| > 32 {
      assert h == data && data[32..|data|] == data[32..];
    }
  }

  /** Under Python 3 the primary decode always raises for a non-empty file,
      so the name always comes from the expanded number, or there is none. */
  lemma Python3UsesExpanded(data: seq<Byte>)
    requires data != []
    ensures Destination(data, Py3).Some? ==> Destination(data, Py3).value.fallback
    ensures Destination(data, Py3).None? <==> |data| <= 32
  {
    assert Lower("ffff") == "ffff";
  }

  // ----------------------------------------------------- outcomes and log

  datatype Counters = Counters(reels: nat, files: nat, good: nat, bad: nat, notCopied: nat, unexpected: nat)

  /** One entry of the log, standing for the line(s) the script writes. */
  datatype Event =
    | Banner(line: string, kind: Checksum)
    | ReelStart(reel: string)
    | Unexpected(src: string)
    | CannotDecode(src: string)
    | FileExists(src: string, dest: Dest)
    | CopyError(src: string, dest: Dest)
    | Copied(src: string, dest: Dest, chksumOk: bool)
    | ReelComplete(reel: string)
    | Summary(counters: Counters)

  /** The kind of outcome an event records. */
  datatype Tag = TReel | TUnexpected | TUndecodable | TExists | TCopyError | TGood | TBad | TOther

  function TagOf(e: Event): Tag
  {
    match e
    case ReelStart(_) => TReel
    case Unexpected(_) => TUnexpected
    case CannotDecode(_) => TUndecodable
    case FileExists(_, _) => TExists
    case CopyError(_, _) => TCopyError
    case Copied(_, _, ok) => if ok then TGood else TBad
    case _ => TOther
  }

  /** The counters the script increments for an outcome: a reel, an
      unexpected file, or a file that then ends undecodable, not copied
      (it exists, or the copy raised), good or bad. */
  function Bump(c: Counters, t: Tag): Counters
  {
    match t
    case TReel => c.(reels := c.reels + 1)
    case TUnexpected => c.(unexpected := c.unexpected + 1)
    case TUndecodable => c.(files := c.files + 1)
    case TExists => c.(files := c.files + 1, notCopied := c.notCopied + 1)
    case TCopyError => c.(files := c.files + 1, notCopied := c.notCopied + 1)
    case TGood => c.(files := c.files + 1, good := c.good + 1)
    case TBad => c.(files := c.files + 1, bad := c.bad + 1)
    case TOther => c
  }

  /** What a copy meets for one file: `shutil.copy2` raises (possibly
      leaving part of a file behind), or it completes with some bytes, after
      which reading the two files for the digest may raise. */
  datatype CopyStep =
    | CopyRaised(leftBehind: Option<seq<Byte>>)
    | CopyDone(written: seq<Byte>, readRaises: bool)

  /** The environment: the hex digest of each algorithm (an uninterpreted
      function of the bytes) and what the copy of the n-th file meets. */
  datatype Env = Env(digest: (Checksum, seq<Byte>) -> string, io: nat -> CopyStep)

  /** With `none` both checksums are the constant 1; otherwise the digests
      of source and copy are compared. */
  predicate ChecksumsMatch(kind: Checksum, digest: (Checksum, seq<Byte>) -> string, src: seq<Byte>, dst: seq<Byte>)
    ensures src == dst ==> ChecksumsMatch(kind, digest, src, dst)
  {
    kind == NoSum || digest(kind, src) == digest(kind, dst)
  }

  /** Counters, the names that exist in the line directory, the bytes of
      the files this run wrote there, and the log. */
  datatype State = State(c: Counters, present: set<string>, out: map<string, seq<Byte>>, log: seq<Event>)

  /** Logs an event and moves the counters its outcome names. */
  function Emit(s: State, e: Event): State
  {
    s.(c := Bump(s.c, TagOf(e)), log := s.log + [e])
  }

  /** A file now exists under `name`, holding `bytes`. */
  function Place(s: State, name: string, bytes: seq<Byte>): State
  {
    s.(present := s.present + {name}, out := s.out[name := bytes])
  }

  function Last(log: seq<Event>): Event
    requires log != []
  {
    log[|log| - 1]
  }

  /** Nothing goes backwards: counters, existing names, written files (never
      rewritten) and the log only grow, and a file is only ever written
      under a name that did not exist. */
  predicate Extends(s: State, t: State)
  {
    && s.c.reels <= t.c.reels && s.c.files <= t.c.files && s.c.good <= t.c.good
    && s.c.bad <= t.c.bad && s.c.notCopied <= t.c.notCopied && s.c.unexpected <= t.c.unexpected
    && s.present <= t.present
    && (forall n :: n in s.out ==> n in t.out && t.out[n] == s.out[n])
    && (forall n :: n in t.out && n !in s.out ==> n !in s.present)
    && s.log <= t.log
  }

  lemma ExtendsTransitive(s: State, t: State, u: State)
    requires Extends(s, t) && Extends(t, u)
    ensures Extends(s, u)
  {
  }

  /** The copy-and-verify block, for a destination that does not exist. */
  function CopyAndVerify(cfg: Config, env: Env, s: State, f: FileEntry, d: Dest): (t: State)
    requires s.out.Keys <= s.present && d.name !in s.present
    ensures t.out.Keys <= t.present && Extends(s, t) && t.log != []
    ensures t.log == s.log + [Last(t.log)] && t.c == Bump(s.c, TagOf(Last(t.log)))
    ensures TagOf(Last(t.log)) == TCopyError || TagOf(Last(t.log)) == TGood || TagOf(Last(t.log)) == TBad
    ensures Last(t.log).Copied? ==> Last(t.log).dest == d && d.name in t.present
    ensures cfg.kind == NoSum ==> TagOf(Last(t.log)) != TBad
    ensures TagOf(Last(t.log)) == TBad ==>
      d.name in t.out && t.out[d.name] != f.data && env.digest(cfg.kind, t.out[d.name]) != env.digest(cfg.kind, f.data)
    // a raising copy is an error, leaving behind whatever it wrote
    ensures var io := env.io(s.c.files + 1);
      io.CopyRaised? ==>
        && Last(t.log) == CopyError(f.name, d)
        && (io.leftBehind.None? ==> t.present == s.present && t.out == s.out)
        && (io.leftBehind.Some? ==> d.name in t.out && t.out[d.name] == io.leftBehind.value)
    // a completed copy holds what was written
    ensures var io := env.io(s.c.files + 1);
      io.CopyDone? ==> d.name in t.out && t.out[d.name] == io.written
    // reading it back for the digest raises: an error, except with `none`
    ensures var io := env.io(s.c.files + 1);
      io.CopyDone? && io.readRaises && cfg.kind != NoSum ==> Last(t.log) == CopyError(f.name, d)
    // otherwise matching checksums count good and differing ones bad
    ensures var io := env.io(s.c.files + 1);
      io.CopyDone? && !(io.readRaises && cfg.kind != NoSum) ==>
        && Last(t.log) == Copied(f.name, d, ChecksumsMatch(cfg.kind, env.digest, f.data, io.written))
        && (TagOf(Last(t.log)) == TGood <==> ChecksumsMatch(cfg.kind, env.digest, f.data, io.written))
        && (TagOf(Last(t.log)) == TBad <==> !ChecksumsMatch(cfg.kind, env.digest, f.data, io.written))
  {
    match env.io(s.c.files + 1)
    case CopyRaised(None) => Emit(s, CopyError(f.name, d))
    case CopyRaised(Some(part)) => Emit(Place(s, d.name, part), CopyError(f.name, d))
    case CopyDone(w, raises) =>
      if raises && cfg.kind != NoSum then Emit(Place(s, d.name, w), CopyError(f.name, d))
      else Emit(Place(s, d.name, w), Copied(f.name, d, ChecksumsMatch(cfg.kind, env.digest, f.data, w)))
  }

  /** An eligible file, once its header has given `dest`: exactly one event
      is logged, and nothing is written unless a new name was chosen. */
  function Decided(cfg: Config, env: Env, s: State, f: FileEntry, dest: Option<Dest>): (t: State)
    requires s.out.Keys <= s.present
    ensures t.out.Keys <= t.present && Extends(s, t) && t.log != []
    ensures t.log == s.log + [Last(t.log)] && t.c == Bump(s.c, TagOf(Last(t.log)))
    ensures TagOf(Last(t.log)) != TUnexpected && TagOf(Last(t.log)) != TReel && TagOf(Last(t.log)) != TOther
    // a header that names nothing: only counted
    ensures dest.None? <==> TagOf(Last(t.log)) == TUndecodable
    ensures dest.None? ==> t.present == s.present && t.out == s.out
    // never over an existing name
    ensures dest.Some? && dest.value.name in s.present ==>
      Last(t.log) == FileExists(f.name, dest.value) && t.present == s.present && t.out == s.out
    // a new name is copied to
    ensures dest.Some? && dest.value.name !in s.present ==> t == CopyAndVerify(cfg, env, s, f, dest.value)
    // a copy is logged under the chosen name, which did not exist before
    ensures Last(t.log).Copied? ==>
      dest == Some(Last(t.log).dest) && Last(t.log).dest.name !in s.present && Last(t.log).dest.name in t.present
    // with checksum type none a completed copy is always good
    ensures cfg.kind == NoSum ==> TagOf(Last(t.log)) != TBad
  {
    match dest
    case None => Emit(s, CannotDecode(f.name))
    case Some(d) =>
      if d.name in s.present then Emit(s, FileExists(f.name, d))
      else CopyAndVerify(cfg, env, s, f, d)
  }

  /** One member of a reel: exactly one event is logged. */
  function StepFile(cfg: Config, env: Env, s: State, f: FileEntry): (t: State)
    requires s.out.Keys <= s.present
    ensures t.out.Keys <= t.present && Extends(s, t) && t.log != []
    ensures t.log == s.log + [Last(t.log)] && t.c == Bump(s.c, TagOf(Last(t.log)))
    ensures TagOf(Last(t.log)) != TReel && TagOf(Last(t.log)) != TOther
    // an ineligible file only counts as unexpected; nothing is read or written
    ensures !Eligible(f.name, |f.data|) <==> TagOf(Last(t.log)) == TUnexpected
    ensures !Eligible(f.name, |f.data|) ==> t.present == s.present && t.out == s.out
    // an eligible one is decided by the name its header gives
    ensures Eligible(f.name, |f.data|) ==> t == Decided(cfg, env, s, f, Destination(f.data, cfg.interp))
  {
    if !Eligible(f.name, |f.data|) then Emit(s, Unexpected(f.name))
    else Decided(cfg, env, s, f, Destination(f.data, cfg.interp))
  }

  /** The members of a reel, in listing order. */
  function FoldFiles(cfg: Config, env: Env, s: State, fs: seq<FileEntry>): (t: State)
    requires s.out.Keys <= s.present
    ensures t.out.Keys <= t.present
    decreases |fs|
  {
    if fs == [] then s
    else StepFile(cfg, env, FoldFiles(cfg, env, s, fs[..|fs| - 1]), fs[|fs| - 1])
  }

  lemma FoldFilesNext(cfg: Config, env: Env, s: State, fs: seq<FileEntry>, i: nat)
    requires s.out.Keys <= s.present && i < |fs|
    ensures FoldFiles(cfg, env, s, fs[..i + 1]) == StepFile(cfg, env, FoldFiles(cfg, env, s, fs[..i]), fs[i])
  {
    assert fs[..i + 1][..i] == fs[..i];
  }

  /** One reel directory: counted and opened in the log, walked, closed. */
  function WalkReel(cfg: Config, env: Env, s: State, e: DirEntry): (t: State)
    requires s.out.Keys <= s.present
    ensures t.out.Keys <= t.present
  {
    Emit(FoldFiles(cfg, env, Emit(s, ReelStart(e.name)), e.members), ReelComplete(e.name))
  }

  /** One entry of the line directory: walked if it is a reel, else ignored. */
  function StepEntry(cfg: Config, env: Env, s: State, e: DirEntry): (t: State)
    requires s.out.Keys <= s.present
    ensures t.out.Keys <= t.present
    ensures !IsReel(e) ==> t == s
  {
    if IsReel(e) then WalkReel(cfg, env, s, e) else s
  }

  /** The entries of the line directory, in listing order. */
  function FoldEntries(cfg: Config, env: Env, s: State, es: seq<DirEntry>): (t: State)
    requires s.out.Keys <= s.present
    ensures t.out.Keys <= t.present
    decreases |es|
  {
    if es == [] then s
    else StepEntry(cfg, env, FoldEntries(cfg, env, s, es[..|es| - 1]), es[|es| - 1])
  }

  function Names(listing: seq<DirEntry>): set<string>
  {
    set e | e in listing :: e.name
  }

  /** After the banner: zero counters; what exists is what the listing of
      the line directory shows. */
  function Start(cfg: Config, listing: seq<DirEntry>): State
  {
    Emit(State(Counters(0, 0, 0, 0, 0, 0), Names(listing), map[], []), Banner(cfg.line, cfg.kind))
  }

  /** The summary block, with the final counters. */
  function Close(s: State): State
  {
    Emit(s, Summary(s.c))
  }

  /** A whole run over the listing of the line directory. */
  function RunSpec(cfg: Config, env: Env, listing: seq<DirEntry>): State
  {
    Close(FoldEntries(cfg, env, Start(cfg, listing), listing))
  }

  // --------------------------------------------------- counting the log

  /** The state before the current file was counted. */
  function Uncounted(s: State): State
    requires s.c.files > 0
  {
    s.(c := s.c.(files := s.c.files - 1))
  }

  /** The number of events of the log with tag `t`. */
  function Tally(log: seq<Event>, t: Tag): nat
    decreases |log|
  {
    if log == [] then 0 else Tally(log[..|log| - 1], t) + (if TagOf(log[|log| - 1]) == t then 1 else 0)
  }

  /** Each counter is the number of log events of its outcomes. */
  predicate Accounted(s: State)
  {
    && s.c.reels == Tally(s.log, TReel)
    && s.c.files == Tally(s.log, TUndecodable) + Tally(s.log, TExists) + Tally(s.log, TCopyError)
                    + Tally(s.log, TGood) + Tally(s.log, TBad)
    && s.c.good == Tally(s.log, TGood)
    && s.c.bad == Tally(s.log, TBad)
    && s.c.notCopied == Tally(s.log, TExists) + Tally(s.log, TCopyError)
    && s.c.unexpected == Tally(s.log, TUnexpected)
  }

  /** Every copy logged exists, and no two copies went to the same name. */
  predicate CopiesDistinct(s: State)
  {
    && s.out.Keys <= s.present
    && (forall i :: 0 <= i < |s.log| && s.log[i].Copied? ==> s.log[i].dest.name in s.present)
    && (forall i, j :: 0 <= i < j < |s.log| && s.log[i].Copied? && s.log[j].Copied? ==>
          s.log[i].dest.name != s.log[j].dest.name)
  }

  predicate Consistent(s: State)
  {
    Accounted(s) && CopiesDistinct(s)
  }

  /** Appending an event adds one to the tally of its tag only. */
  lemma TallySnoc(log: seq<Event>, e: Event, t: Tag)
    ensures Tally(log + [e], t) == Tally(log, t) + (if TagOf(e) == t then 1 else 0)
  {
    assert (log + [e])[..|log|] == log;
  }

  /** Logging an event keeps the counters equal to the tallies of the log. */
  lemma EmitAccounted(s: State, e: Event)
    requires Accounted(s)
    ensures Accounted(Emit(s, e))
  {
    TallySnoc(s.log, e, TReel);
    TallySnoc(s.log, e, TUnexpected);
    TallySnoc(s.log, e, TUndecodable);
    TallySnoc(s.log, e, TExists);
    TallySnoc(s.log, e, TCopyError);
    TallySnoc(s.log, e, TGood);
    TallySnoc(s.log, e, TBad);
    var c := Emit(s, e).c;
    match TagOf(e)
    case TReel => assert c == s.c.(reels := s.c.reels + 1);
    case TUnexpected => assert c == s.c.(unexpected := s.c.unexpected + 1);
    case TUndecodable => assert c == s.c.(files := s.c.files + 1);
    case TExists => assert c == s.c.(files := s.c.files + 1, notCopied := s.c.notCopied + 1);
    case TCopyError => assert c == s.c.(files := s.c.files + 1, notCopied := s.c.notCopied + 1);
    case TGood => assert c == s.c.(files := s.c.files + 1, good := s.c.good + 1);
    case TBad => assert c == s.c.(files := s.c.files + 1, bad := s.c.bad + 1);
    case TOther => assert c == s.c;
  }

  lemma StartConsistent(cfg: Config, listing: seq<DirEntry>)
    ensures Consistent(Start(cfg, listing))
  {
    var empty := State(Counters(0, 0, 0, 0, 0, 0), Names(listing), map[], []);
    EmitAccounted(empty, Banner(cfg.line, cfg.kind));
  }

  /** One file keeps the counters in step with the log and the copies distinct. */
  lemma StepFileConsistent(cfg: Config, env: Env, s: State, f: FileEntry)
    requires Consistent(s)
    ensures Consistent(StepFile(cfg, env, s, f))
  {
    var t := StepFile(cfg, env, s, f);
    var e := Last(t.log);
    EmitAccounted(s, e);
    assert Emit(s, e).c == t.c && Emit(s, e).log == t.log;
  }

  /** Walking members keeps the run consistent and only ever adds to it. */
  lemma {:induction false} FoldFilesConsistent(cfg: Config, env: Env, s: State, fs: seq<FileEntry>)
    requires Consistent(s)
    ensures var t := FoldFiles(cfg, env, s, fs); Consistent(t) && Extends(s, t)
    decreases |fs|
  {
    if fs != [] {
      var init := fs[..|fs| - 1];
      FoldFilesConsistent(cfg, env, s, init);
      var m := FoldFiles(cfg, env, s, init);
      StepFileConsistent(cfg, env, m, fs[|fs| - 1]);
      ExtendsTransitive(s, m, FoldFiles(cfg, env, s, fs));
    }
  }

  /** A member is counted once, as a file or as unexpected. */
  lemma StepFileCounts(cfg: Config, env: Env, s: State, f: FileEntry)
    requires s.out.Keys <= s.present
    ensures var t := StepFile(cfg, env, s, f);
      && t.c.reels == s.c.reels
      && t.c.files + t.c.unexpected == s.c.files + s.c.unexpected + 1
  {
    var t := StepFile(cfg, env, s, f);
    BumpCountsOne(s.c, TagOf(Last(t.log)));
  }

  /** Any outcome but a reel or a message adds one to files plus unexpected. */
  lemma BumpCountsOne(c: Counters, t: Tag)
    requires t != TReel && t != TOther
    ensures Bump(c, t).reels == c.reels && Bump(c, t).files + Bump(c, t).unexpected == c.files + c.unexpected + 1
  {
  }

  /** Each member of a reel is counted exactly once, as a file or as
      unexpected; no reel is counted. */
  lemma {:induction false} FoldFilesCounts(cfg: Config, env: Env, s: State, fs: seq<FileEntry>)
    requires s.out.Keys <= s.present
    ensures var t := FoldFiles(cfg, env, s, fs);
      && t.c.reels == s.c.reels
      && t.c.files + t.c.unexpected == s.c.files + s.c.unexpected + |fs|
    decreases |fs|
  {
    if fs != [] {
      var init := fs[..|fs| - 1];
      FoldFilesCounts(cfg, env, s, init);
      StepFileCounts(cfg, env, FoldFiles(cfg, env, s, init), fs[|fs| - 1]);
    }
  }

  /** An event that is not a copy keeps the copies distinct. */
  lemma EmitOtherConsistent(s: State, e: Event)
    requires Consistent(s) && !e.Copied?
    ensures Consistent(Emit(s, e)) && Extends(s, Emit(s, e))
  {
    EmitAccounted(s, e);
    var t := Emit(s, e);
    forall i | 0 <= i < |t.log| && t.log[i].Copied?
      ensures t.log[i].dest.name in t.present
    {
      assert t.log[i] == s.log[i];
    }
  }

  lemma WalkReelConsistent(cfg: Config, env: Env, s: State, e: DirEntry)
    requires Consistent(s)
    ensures var t := WalkReel(cfg, env, s, e); Consistent(t) && Extends(s, t)
  {
    var begun := Emit(s, ReelStart(e.name));
    EmitOtherConsistent(s, ReelStart(e.name));
    FoldFilesConsistent(cfg, env, begun, e.members);
    var walked := FoldFiles(cfg, env, begun, e.members);
    EmitOtherConsistent(walked, ReelComplete(e.name));
    ExtendsTransitive(s, begun, walked);
    ExtendsTransitive(s, walked, Emit(walked, ReelComplete(e.name)));
  }

  /** A reel adds one to the reel counter and counts each member once. */
  lemma WalkReelCounts(cfg: Config, env: Env, s: State, e: DirEntry)
    requires s.out.Keys <= s.present
    ensures var t := WalkReel(cfg, env, s, e);
      && t.c.reels == s.c.reels + 1
      && t.c.files + t.c.unexpected == s.c.files + s.c.unexpected + |e.members|
  {
    var begun := Emit(s, ReelStart(e.name));
    assert begun.c == s.c.(reels := s.c.reels + 1);
    FoldFilesCounts(cfg, env, begun, e.members);
    var walked := FoldFiles(cfg, env, begun, e.members);
    assert TagOf(ReelComplete(e.name)) == TOther;
    assert Emit(walked, ReelComplete(e.name)).c == walked.c;
  }

  /** The number of reels in a listing. */
  function ReelCount(es: seq<DirEntry>): nat
    decreases |es|
  {
    if es == [] then 0 else ReelCount(es[..|es| - 1]) + (if IsReel(es[|es| - 1]) then 1 else 0)
  }

  /** The number of members of all reels in a listing. */
  function MemberCount(es: seq<DirEntry>): nat
    decreases |es|
  {
    if es == [] then 0
    else MemberCount(es[..|es| - 1]) + (if IsReel(es[|es| - 1]) then |es[|es| - 1].members| else 0)
  }

  lemma {:induction false} FoldEntriesConsistent(cfg: Config, env: Env, s: State, es: seq<DirEntry>)
    requires Consistent(s)
    ensures var t := FoldEntries(cfg, env, s, es); Consistent(t) && Extends(s, t)
    decreases |es|
  {
    if es != [] {
      var init := es[..|es| - 1];
      FoldEntriesConsistent(cfg, env, s, init);
      var m := FoldEntries(cfg, env, s, init);
      if IsReel(es[|es| - 1]) {
        WalkReelConsistent(cfg, env, m, es[|es| - 1]);
        ExtendsTransitive(s, m, FoldEntries(cfg, env, s, es));
      }
    }
  }

  /** The reel counter counts the reels of the listing, and every member of
      every reel is counted once. */
  lemma {:induction false} FoldEntriesCounts(cfg: Config, env: Env, s: State, es: seq<DirEntry>)
    requires s.out.Keys <= s.present
    ensures var t := FoldEntries(cfg, env, s, es);
      && t.c.reels == s.c.reels + ReelCount(es)
      && t.c.files + t.c.unexpected == s.c.files + s.c.unexpected + MemberCount(es)
    decreases |es|
  {
    if es != [] {
      var init := es[..|es| - 1];
      FoldEntriesCounts(cfg, env, s, init);
      if IsReel(es[|es| - 1]) {
        WalkReelCounts(cfg, env, FoldEntries(cfg, env, s, init), es[|es| - 1]);
      }
    }
  }

  /** A run counts every reel of the listing once and every member of every
      reel once, as a file or as an unexpected file. */
  lemma RunCounts(cfg: Config, env: Env, listing: seq<DirEntry>)
    ensures var r := RunSpec(cfg, env, listing);
      && r.c.reels == ReelCount(listing)
      && r.c.files + r.c.unexpected == MemberCount(listing)
  {
    var s := Start(cfg, listing);
    assert s.c == Counters(0, 0, 0, 0, 0, 0);
    FoldEntriesCounts(cfg, env, s, listing);
    var t := FoldEntries(cfg, env, s, listing);
    assert Close(t).c == t.c;
  }

  /** What a whole run guarantees: every reel member is counted once, as an
      unexpected file or as a file; every file ends good, bad, not copied or
      undecodable; the counters agree with the log; no two sources were
      copied to one name; nothing that existed before the run was written;
      the log opens with the banner and ends with the summary. */
  lemma RunGuarantees(cfg: Config, env: Env, listing: seq<DirEntry>)
    ensures var r := RunSpec(cfg, env, listing);
      && Consistent(r)
      && r.c.reels == ReelCount(listing)
      && r.c.files + r.c.unexpected == MemberCount(listing)
      && r.c.files == r.c.good + r.c.bad + r.c.notCopied + Tally(r.log, TUndecodable)
      && (forall n :: n in r.out ==> n !in Names(listing))
      && Names(listing) <= r.present
      && r.log[0] == Banner(cfg.line, cfg.kind)
      && Last(r.log) == Summary(r.c)
  {
    RunCounts(cfg, env, listing);
    var s := Start(cfg, listing);
    StartConsistent(cfg, listing);
    FoldEntriesConsistent(cfg, env, s, listing);
    var t := FoldEntries(cfg, env, s, listing);
    EmitOtherConsistent(t, Summary(t.c));
    var r := Close(t);
    ExtendsTransitive(s, t, r);
    assert s.out == map[] && s.present == Names(listing);
    assert s.log == [Banner(cfg.line, cfg.kind)] && s.log <= r.log;
    assert r.log[0] == s.log[0];
  }

  /** Once a run has created its log file, the same command is refused
      with the log-exists message. */
  lemma SecondRunRefused(argv: seq<string>, interp: Interp, cwdDirs: set<string>, cwdNames: set<string>)
    requires Configure(argv, interp, cwdDirs, cwdNames).Success?
    ensures Configure(argv, interp, cwdDirs, cwdNames + {LogName(argv[1])}) == Failure(LogExists)
  {
  }

  // ---------------------------------------------------- the run, in place

  /** The header read and the choice of name: the two decoders, their
      sentinels where they raise, then the choice. */
  method ChooseName(data: seq<Byte>, interp: Interp) returns (dest: Option<Dest>)
    ensures dest == Destination(data, interp)
  {
    var bdata := Head35(data);
    var r1 := DecodeFfid(if |bdata| <= 2 then bdata else bdata[..2], interp);
    var ffid := if r1.Some? then r1.value else "ffff";
    var r2 := DecodeEffid(if |bdata| <= 32 then [] else bdata[32..]);
    var effid: int := if r2.Some? then r2.value else -99;
    assert |bdata| <= 35;
    if Lower(ffid) != "ffff" {
      dest := Some(Dest(PadLeft(ffid, 8, '0') + ".ffid", false));
    } else if effid != -99 {
      dest := Some(Dest(PadLeft(FormatInt(effid), 8, '0') + ".ffid", true));
    } else {
      dest := None;
    }
  }

  /** The script's module-level state: the six counters, what exists in the
      line directory, the files it wrote there, and the log. */
  class DumpRun {
    const cfg: Config
    var rcount: nat
    var fcount: nat
    var goodChksum: nat
    var badChksum: nat
    var notCopied: nat
    var unexpectedFile: nat
    var present: set<string>
    var out: map<string, seq<Byte>>
    var log: seq<Event>

    function Snapshot(): State
      reads this
    {
      State(Counters(rcount, fcount, goodChksum, badChksum, notCopied, unexpectedFile), present, out, log)
    }

    ghost predicate Valid()
      reads this
    {
      Consistent(Snapshot())
    }

    /** Counters at zero and the banner logged. */
    constructor (cfg: Config, listing: seq<DirEntry>)
      ensures this.cfg == cfg
      ensures Snapshot() == Start(cfg, listing)
    {
      this.cfg := cfg;
      rcount, fcount, goodChksum, badChksum, notCopied, unexpectedFile := 0, 0, 0, 0, 0, 0;
      present := set e | e in listing :: e.name;
      out := map[];
      log := [Banner(cfg.line, cfg.kind)];
    }

    /** The copy-and-verify block for file number `fcount`, which has
        already been counted. */
    method CopyVerify(env: Env, f: FileEntry, d: Dest)
      requires fcount > 0 && out.Keys <= present && d.name !in present
      modifies this
      ensures Snapshot() == CopyAndVerify(cfg, env, Uncounted(old(Snapshot())), f, d)
    {
      match env.io(fcount) {
        case CopyRaised(left) =>
          CopyFailed(env, f, d, left);
        case CopyDone(w, raises) =>
          CopyFinished(env, f, d, w, raises);
      }
    }

    /** A file now exists under `name` in the line directory, holding `bytes`. */
    method WriteFile(name: string, bytes: seq<Byte>)
      modifies this
      ensures Snapshot() == Place(old(Snapshot()), name, bytes)
    {
      present := present + {name};
      out := out[name := bytes];
    }

    /** The current file, already counted, is not copied because the copy
        raised. */
    method NoteCopyError(f: FileEntry, d: Dest)
      requires fcount > 0
      modifies this
      ensures Snapshot() == Emit(Uncounted(old(Snapshot())), CopyError(f.name, d))
    {
      notCopied := notCopied + 1;
      log := log + [CopyError(f.name, d)];
    }

    /** The current file, already counted, was copied; `ok` says whether
        the checksums agreed. */
    method NoteCopied(f: FileEntry, d: Dest, ok: bool)
      requires fcount > 0
      modifies this
      ensures Snapshot() == Emit(Uncounted(old(Snapshot())), Copied(f.name, d, ok))
    {
      if ok {
        goodChksum := goodChksum + 1;
      } else {
        badChksum := badChksum + 1;
      }
      log := log + [Copied(f.name, d, ok)];
    }

    /** `shutil.copy2` raised: whatever it left behind exists, and the file
        is not copied. */
    method CopyFailed(env: Env, f: FileEntry, d: Dest, left: Option<seq<Byte>>)
      requires fcount > 0 && out.Keys <= present && d.name !in present
      requires env.io(fcount) == CopyRaised(left)
      modifies this
      ensures Snapshot() == CopyAndVerify(cfg, env, Uncounted(old(Snapshot())), f, d)
    {
      if left.Some? {
        WriteFile(d.name, left.value);
      }
      NoteCopyError(f, d);
    }

    /** `shutil.copy2` completed with `w`: the copy exists; then either the
        checksum call raises, or the two checksums are compared. */
    method CopyFinished(env: Env, f: FileEntry, d: Dest, w: seq<Byte>, raises: bool)
      requires fcount > 0 && out.Keys <= present && d.name !in present
      requires env.io(fcount) == CopyDone(w, raises)
      modifies this
      ensures Snapshot() == CopyAndVerify(cfg, env, Uncounted(old(Snapshot())), f, d)
    {
      WriteFile(d.name, w);
      if raises && cfg.kind != NoSum {
        NoteCopyError(f, d);
      } else {
        var srcSum := if cfg.kind == NoSum then "1" else env.digest(cfg.kind, f.data);
        var dstSum := if cfg.kind == NoSum then "1" else env.digest(cfg.kind, w);
        NoteCopied(f, d, srcSum == dstSum);
      }
    }

    /** What follows the header read for file number `fcount` (already
        counted): the undecodable message, the exists message, or the copy. */
    method Settle(env: Env, f: FileEntry, dest: Option<Dest>)
      requires fcount > 0 && out.Keys <= present
      modifies this
      ensures Snapshot() == Decided(cfg, env, Uncounted(old(Snapshot())), f, dest)
    {
      match dest {
        case None =>
          log := log + [CannotDecode(f.name)];
        case Some(d) =>
          if d.name in present {
            log := log + [FileExists(f.name, d)];
            notCopied := notCopied + 1;
          } else {
            CopyVerify(env, f, d);
          }
      }
    }

    /** One reel member: filter, decode, choose the name, copy, verify. */
    method ProcessFile(env: Env, f: FileEntry)
      requires out.Keys <= present
      modifies this
      ensures Snapshot() == StepFile(cfg, env, old(Snapshot()), f)
    {
      var fnum := FileNumber(f.name);
      var fsize := |f.data|;
      if |f.name| == 13 && EndsWith(f.name, ".dump") && fnum > 0 && fsize > 0 && fsize != EmptyHeaderSize {
        CountFile();
        var dest := ChooseName(f.data, cfg.interp);
        Settle(env, f, dest);
      } else {
        NoteUnexpected(f.name);
      }
    }

    /** The file counter is incremented before the header is read. */
    method CountFile()
      modifies this
      ensures fcount > 0 && Uncounted(Snapshot()) == old(Snapshot())
    {
      fcount := fcount + 1;
    }

    /** A member that is not a recorder dump is only counted and logged. */
    method NoteUnexpected(name: string)
      modifies this
      ensures Snapshot() == Emit(old(Snapshot()), Unexpected(name))
    {
      unexpectedFile := unexpectedFile + 1;
      log := log + [Unexpected(name)];
    }

    /** The members of one reel, in listing order. */
    method ProcessMembers(env: Env, members: seq<FileEntry>)
      requires out.Keys <= present
      modifies this
      ensures Snapshot() == FoldFiles(cfg, env, old(Snapshot()), members)
    {
      ghost var begun := Snapshot();
      for i := 0 to |members|
        invariant out.Keys <= present
        invariant Snapshot() == FoldFiles(cfg, env, begun, members[..i])
      {
        FoldFilesNext(cfg, env, begun, members, i);
        ProcessFile(env, members[i]);
      }
      assert members[..|members|] == members;
    }

    /** A reel is counted and its start logged. */
    method OpenReel(name: string)
      modifies this
      ensures Snapshot() == Emit(old(Snapshot()), ReelStart(name))
    {
      rcount := rcount + 1;
      log := log + [ReelStart(name)];
    }

    /** The end of a reel is logged. */
    method CloseReel(name: string)
      modifies this
      ensures Snapshot() == Emit(old(Snapshot()), ReelComplete(name))
    {
      log := log + [ReelComplete(name)];
    }

    /** One reel directory: counted, its members walked, then closed. */
    method ProcessReel(env: Env, e: DirEntry)
      requires out.Keys <= present
      modifies this
      ensures Snapshot() == WalkReel(cfg, env, old(Snapshot()), e)
    {
      OpenReel(e.name);
      ProcessMembers(env, e.members);
      CloseReel(e.name);
    }

    /** Every reel of the line directory, in listing order. */
    method ProcessLine(env: Env, listing: seq<DirEntry>)
      requires Valid()
      modifies this
      ensures Snapshot() == FoldEntries(cfg, env, old(Snapshot()), listing)
      ensures Valid() && Extends(old(Snapshot()), Snapshot())
    {
      ghost var start := Snapshot();
      for i := 0 to |listing|
        invariant out.Keys <= present
        invariant Snapshot() == FoldEntries(cfg, env, start, listing[..i])
      {
        assert listing[..i + 1][..i] == listing[..i];
        if IsReel(listing[i]) {
          ProcessReel(env, listing[i]);
        }
      }
      assert listing[..|listing|] == listing;
      FoldEntriesConsistent(cfg, env, start, listing);
    }

    /** The summary block. */
    method Finish()
      modifies this
      ensures Snapshot() == Close(old(Snapshot()))
    {
      log := log + [Summary(Snapshot().c)];
    }
  }

  /** The whole script: the start-up checks, then the run.  A refused start
      writes nothing; a run creates the log file, so a second run with the
      same arguments is refused. */
  method RunDumpRename(argv: seq<string>, interp: Interp, cwdDirs: set<string>, cwdNames: set<string>,
                       listing: seq<DirEntry>, env: Env)
    returns (r: Result<State, Abort>, cwdAfter: set<string>)
    ensures r.Failure? <==> Configure(argv, interp, cwdDirs, cwdNames).Failure?
    ensures r.Failure? ==> r.error == Configure(argv, interp, cwdDirs, cwdNames).error && cwdAfter == cwdNames
    ensures r.Success? ==>
      && r.value == RunSpec(Configure(argv, interp, cwdDirs, cwdNames).value, env, listing)
      && cwdAfter == cwdNames + {LogName(argv[1])}
      && r.value.c.files == r.value.c.good + r.value.c.bad + r.value.c.notCopied + Tally(r.value.log, TUndecodable)
      && r.value.c.files + r.value.c.unexpected == MemberCount(listing)
    ensures Configure(argv, interp, cwdDirs, cwdAfter).Failure?
    ensures r.Success? ==> Configure(argv, interp, cwdDirs, cwdAfter) == Failure(LogExists)
  {
    var conf := Configure(argv, interp, cwdDirs, cwdNames);
    if conf.Failure? {
      return Failure(conf.error), cwdNames;
    }
    var run := new DumpRun(conf.value, listing);
    StartConsistent(conf.value, listing);
    run.ProcessLine(env, listing);
    run.Finish();
    assert run.Snapshot() == RunSpec(conf.value, env, listing);
    RunGuarantees(conf.value, env, listing);
    r := Success(run.Snapshot());
    cwdAfter := cwdNames + {LogName(argv[1])};
    SecondRunRefused(argv, interp, cwdDirs, cwdNames);
  }
}
