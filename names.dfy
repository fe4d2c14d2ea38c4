/**
 * The pure string helpers of the recorder: the date-folder name and the
 * timestamp cut from one clock reading in ISO-8601 form, the recording's
 * file name and path, the log line with its two messages, and the catalog's
 * selection of `.mp4` names.
 *
 * A clock reading is the string `Date.prototype.toISOString` returns. The
 * helpers accept any string and count characters as Dafny does, one per
 * Unicode scalar value; on strings with no character outside the Basic
 * Multilingual Plane, as every clock reading is, that is the JavaScript
 * count of UTF-16 code units. `IsIso` describes the 24-character form the
 * clock yields for the years 0000 to 9999.
 */
module Names {
  import opened Wrappers

  /** `path.join(dir, name)` for a directory and one plain component. */
  function Join(dir: string, name: string): string
  {
    dir + "/" + name
  }

  // ---------------------------------------------------------------------
  // Date folder: `toISOString().slice(0, 10)`
  // ---------------------------------------------------------------------

  /** The first ten characters of the clock reading, or all of a shorter one. */
  function DateFolder(iso: string): (d: string)
    ensures d <= iso
    ensures |d| == if |iso| < 10 then |iso| else 10
  {
    if |iso| < 10 then iso else iso[..10]
  }

  // ---------------------------------------------------------------------
  // Timestamp: `toISOString().replace(/:/g, '-').replace(/\..+/, '')`
  // ---------------------------------------------------------------------

  /** `replace(/:/g, '-')`: every colon becomes a hyphen, nothing else moves. */
  function ReplaceColons(s: string): (r: string)
    ensures |r| == |s|
    ensures forall i :: 0 <= i < |s| ==> r[i] == (if s[i] == ':' then '-' else s[i])
  {
    if s == [] then [] else [if s[0] == ':' then '-' else s[0]] + ReplaceColons(s[1..])
  }

  /** The characters a JavaScript `.` in a regular expression does not match. */
  predicate IsLineTerminator(c: char)
  {
    c == '\n' || c == '\r' || c == '\U{2028}' || c == '\U{2029}'
  }

  /** The pattern `\..+` can start at `j`: a full stop followed by at least one matchable character. */
  predicate FractionAt(s: string, j: int)
  {
    0 <= j && j + 1 < |s| && s[j] == '.' && !IsLineTerminator(s[j + 1])
  }

  /** The leftmost position at or after `i` where `\..+` matches, as the regular-expression search finds it. */
  function FirstFraction(s: string, i: nat): (r: Option<nat>)
    requires i <= |s|
    ensures r.Some? ==> i <= r.value && FractionAt(s, r.value)
    ensures r.Some? ==> forall j :: i <= j < r.value ==> !FractionAt(s, j)
    ensures r.None? ==> forall j :: i <= j < |s| ==> !FractionAt(s, j)
    decreases |s| - i
  {
    if i == |s| then None
    else if FractionAt(s, i) then Some(i)
    else FirstFraction(s, i + 1)
  }

  /** Where the greedy `.+` starting at `j` stops: at the next line terminator or at the end. */
  function RunEnd(s: string, j: nat): (k: nat)
    requires j <= |s|
    ensures j <= k <= |s|
    ensures k == |s| || IsLineTerminator(s[k])
    ensures forall m :: j <= m < k ==> !IsLineTerminator(s[m])
    decreases |s| - j
  {
    if j == |s| || IsLineTerminator(s[j]) then j else RunEnd(s, j + 1)
  }

  /** `replace(/\..+/, '')`: removes the first match of `\..+`, if there is one. */
  function StripFraction(s: string): (r: string)
    ensures |r| <= |s|
    ensures forall c :: c in r ==> c in s
    ensures (forall j :: 0 <= j < |s| ==> !FractionAt(s, j)) ==> r == s
  {
    match FirstFraction(s, 0)
    case None => s
    case Some(i) =>
      var k := RunEnd(s, i + 1);
      assert s == s[..i] + s[i..k] + s[k..];
      s[..i] + s[k..]
  }

  /**
   * The match removed is the leftmost one: it starts at the first `.` that
   * a non-terminator follows and runs, greedily, up to the next line
   * terminator or the end.
   */
  lemma StripFractionRemovesFirstMatch(s: string, i: nat, k: nat)
    requires i < k <= |s| && FractionAt(s, i)
    requires forall j :: 0 <= j < i ==> !FractionAt(s, j)
    requires k == |s| || IsLineTerminator(s[k])
    requires forall m :: i < m < k ==> !IsLineTerminator(s[m])
    ensures StripFraction(s) == s[..i] + s[k..]
  {
    assert FirstFraction(s, 0) == Some(i);
    assert RunEnd(s, i + 1) == k;
  }

  /** The timestamp embedded in a recording's file name. */
  function Timestamp(iso: string): (t: string)
    ensures ':' !in t
    ensures |t| <= |iso|
  {
    var r := ReplaceColons(iso);
    StripFraction(r)
  }

  predicate IsDigit(c: char)
  {
    '0' <= c <= '9'
  }

  /** The form `YYYY-MM-DDTHH:mm:ss.sssZ` of a clock reading. */
  predicate IsIso(s: string)
  {
    && |s| == 24
    && s[4] == '-' && s[7] == '-' && s[10] == 'T'
    && s[13] == ':' && s[16] == ':' && s[19] == '.' && s[23] == 'Z'
    && forall i :: 0 <= i < 24 && i !in {4, 7, 10, 13, 16, 19, 23} ==> IsDigit(s[i])
  }

  /**
   * For a well-formed reading the timestamp is its first nineteen characters,
   * down to the second, with the colons turned into hyphens: it holds no
   * colon and no full stop, and its first ten characters are the date folder.
   */
  lemma IsoTimestamp(iso: string)
    requires IsIso(iso)
    ensures Timestamp(iso) == ReplaceColons(iso)[..19]
    ensures |Timestamp(iso)| == 19
    ensures ':' !in Timestamp(iso) && '.' !in Timestamp(iso)
    ensures Timestamp(iso)[..10] == DateFolder(iso)
  {
    var r := ReplaceColons(iso);
    assert FractionAt(r, 19);
    forall j | 0 <= j < 19
      ensures !FractionAt(r, j)
    {
      assert r[j] != '.';
    }
    var f := FirstFraction(r, 0);
    assert f == Some(19);
    var k := RunEnd(r, 20);
    forall m | 20 <= m < 24
      ensures !IsLineTerminator(r[m])
    {
      assert m == 23 || IsDigit(iso[m]);
    }
    assert k == 24;
    assert StripFraction(r) == r[..19] + r[24..];
    assert r[24..] == [];
    assert Timestamp(iso) == r[..19];
    forall j | 0 <= j < 19
      ensures r[j] != '.'
    {
    }
  }

  /** Two well-formed readings give the same timestamp exactly when they fall in the same second. */
  lemma TimestampSameSecond(a: string, b: string)
    requires IsIso(a) && IsIso(b)
    ensures Timestamp(a) == Timestamp(b) <==> a[..19] == b[..19]
  {
    if a[..19] == b[..19] {
      SameSecondSameTimestamp(a, b);
    }
    if Timestamp(a) == Timestamp(b) {
      SameTimestampSameSecond(a, b);
    }
  }

  lemma SameSecondSameTimestamp(a: string, b: string)
    requires IsIso(a) && IsIso(b) && a[..19] == b[..19]
    ensures Timestamp(a) == Timestamp(b)
  {
    IsoTimestamp(a);
    IsoTimestamp(b);
    var ra, rb := ReplaceColons(a), ReplaceColons(b);
    forall j | 0 <= j < 19
      ensures ra[j] == rb[j]
    {
      assert a[j] == a[..19][j] && b[j] == b[..19][j];
    }
    assert ra[..19] == rb[..19];
  }

  lemma SameTimestampSameSecond(a: string, b: string)
    requires IsIso(a) && IsIso(b) && Timestamp(a) == Timestamp(b)
    ensures a[..19] == b[..19]
  {
    IsoTimestamp(a);
    IsoTimestamp(b);
    var ra, rb := ReplaceColons(a), ReplaceColons(b);
    forall j | 0 <= j < 19
      ensures a[j] == b[j]
    {
      assert ra[..19][j] == rb[..19][j];
      if j != 13 && j != 16 {
        assert a[j] != ':' && b[j] != ':';
      }
    }
  }

  // ---------------------------------------------------------------------
  // Recording file name and path
  // ---------------------------------------------------------------------

  const RecordingPrefix := "gravacao_"
  const VideoExtension := ".mp4"

  /** The file name of a recording started with timestamp `ts`. */
  function RecordingName(ts: string): (n: string)
    ensures |n| == |RecordingPrefix| + |ts| + |VideoExtension|
    ensures RecordingPrefix <= n && EndsWith(n, VideoExtension)
    ensures n[|RecordingPrefix|..|n| - |VideoExtension|] == ts
  {
    RecordingPrefix + ts + VideoExtension
  }

  /** The date folder of a start, under the recordings root. */
  function RecordingFolder(baseDir: string, folderIso: string): string
  {
    Join(baseDir, DateFolder(folderIso))
  }

  /**
   * The path of a recording: the folder is named after one clock reading
   * (taken when the folder is made) and the file after another (taken when
   * the name is built).
   */
  function RecordingPath(baseDir: string, folderIso: string, stampIso: string): string
  {
    Join(RecordingFolder(baseDir, folderIso), RecordingName(Timestamp(stampIso)))
  }

  /** A recording's path: below the recordings root, with the video extension. */
  predicate IsRecordingUnder(baseDir: string, p: string)
  {
    baseDir + "/" <= p && EndsWith(p, VideoExtension)
  }

  /** Every path the recorder builds lies below the root, and its file name starts with the prefix and ends with the extension. */
  lemma RecordingPathShape(baseDir: string, folderIso: string, stampIso: string)
    ensures IsRecordingUnder(baseDir, RecordingPath(baseDir, folderIso, stampIso))
    ensures var n := RecordingName(Timestamp(stampIso));
      RecordingPath(baseDir, folderIso, stampIso) == RecordingFolder(baseDir, folderIso) + "/" + n
      && RecordingPrefix <= n && EndsWith(n, VideoExtension)
  {
    var dir, n := DateFolder(folderIso), RecordingName(Timestamp(stampIso));
    var p := RecordingPath(baseDir, folderIso, stampIso);
    var a := baseDir + "/";
    assert p == (a + dir + "/") + n;
    Assoc(a + dir, "/", n);
    Assoc(a, dir, "/" + n);
    assert p == a + (dir + ("/" + n));
    EndsWithAppend(a + dir + "/", n, VideoExtension);
  }

  /** A suffix of the tail is a suffix of the whole. */
  lemma EndsWithAppend(a: string, b: string, suffix: string)
    requires EndsWith(b, suffix)
    ensures EndsWith(a + b, suffix)
  {
    assert (a + b)[|a + b| - |suffix|..] == b[|b| - |suffix|..];
  }

  /** Where the date folder and the timestamp sit in the path of a start with well-formed readings. */
  lemma PathTimestamp(baseDir: string, folderIso: string, stampIso: string)
    requires IsIso(folderIso) && IsIso(stampIso)
    ensures var p := RecordingPath(baseDir, folderIso, stampIso);
      var off := |baseDir| + 1 + 10 + 1 + |RecordingPrefix|;
      && |p| == off + 19 + |VideoExtension|
      && p[|baseDir| + 1..|baseDir| + 11] == folderIso[..10]
      && p[off..off + 19] == Timestamp(stampIso)
  {
    IsoTimestamp(stampIso);
    PathParts(baseDir, DateFolder(folderIso), Timestamp(stampIso));
  }

  /** Where the day and the timestamp sit in `<root>/<day>/gravacao_<ts>.mp4`. */
  lemma PathParts(baseDir: string, day: string, ts: string)
    ensures var p := Join(Join(baseDir, day), RecordingName(ts));
      var off := |baseDir| + 1 + |day| + 1 + |RecordingPrefix|;
      && |p| == off + |ts| + |VideoExtension|
      && p[|baseDir| + 1..|baseDir| + 1 + |day|] == day
      && p[off..off + |ts|] == ts
  {
    var a := baseDir + "/";
    var dir := a + day + "/";
    var n := RecordingName(ts);
    var p := Join(Join(baseDir, day), n);
    assert p == dir + n;
    Assoc(a + day, "/", n);
    Middle(a, day, "/" + n);
    Assoc(dir, RecordingPrefix + ts, VideoExtension);
    Assoc(dir, RecordingPrefix, ts);
    Middle(dir + RecordingPrefix, ts, VideoExtension);
  }

  /** Concatenation regroups freely. */
  lemma Assoc(a: string, b: string, c: string)
    ensures (a + b) + c == a + (b + c)
  {
  }

  /** The middle part of a three-part concatenation sits right after the first. */
  lemma Middle(a: string, b: string, c: string)
    ensures (a + b + c)[|a|..|a| + |b|] == b
  {
    assert (a + b + c)[|a|..|a| + |b|] == (a + b)[|a|..];
  }

  /**
   * With well-formed readings, two starts give the same path exactly when
   * their folder readings fall on the same day and their name readings in
   * the same second (the second start then overwrites the first file).
   */
  lemma RecordingPathSameSecond(baseDir: string, f1: string, s1: string, f2: string, s2: string)
    requires IsIso(f1) && IsIso(s1) && IsIso(f2) && IsIso(s2)
    ensures RecordingPath(baseDir, f1, s1) == RecordingPath(baseDir, f2, s2)
        <==> f1[..10] == f2[..10] && s1[..19] == s2[..19]
  {
    TimestampSameSecond(s1, s2);
    if f1[..10] == f2[..10] && s1[..19] == s2[..19] {
      assert DateFolder(f1) == DateFolder(f2);
    }
    if RecordingPath(baseDir, f1, s1) == RecordingPath(baseDir, f2, s2) {
      PathTimestamp(baseDir, f1, s1);
      PathTimestamp(baseDir, f2, s2);
    }
  }

  // ---------------------------------------------------------------------
  // Log line
  // ---------------------------------------------------------------------

  const LogFileName := "log_gravacoes.txt"

  /** The line appended to the log: the clock reading, a separator, the message, a newline. */
  function LogLine(iso: string, msg: string): string
  {
    iso + " - " + msg + "\n"
  }

  function StartMessage(file: string): string
  {
    "Início gravação: " + file
  }

  function EndMessage(file: string): string
  {
    "Finalização gravação: " + file
  }

  /** The separator " - " starts at `j`. */
  predicate SeparatorAt(s: string, j: int)
  {
    0 <= j && j + 3 <= |s| && s[j] == ' ' && s[j + 1] == '-' && s[j + 2] == ' '
  }

  /** The first position at or after `i` where the separator starts. */
  function FindSeparator(s: string, i: nat): (r: Option<nat>)
    requires i <= |s|
    ensures r.Some? ==> i <= r.value && SeparatorAt(s, r.value)
    ensures r.Some? ==> forall j :: i <= j < r.value ==> !SeparatorAt(s, j)
    ensures r.None? ==> forall j :: i <= j < |s| ==> !SeparatorAt(s, j)
    decreases |s| - i
  {
    if i == |s| then None
    else if SeparatorAt(s, i) then Some(i)
    else FindSeparator(s, i + 1)
  }

  /**
   * Reads a log line back: the clock reading runs up to the first separator,
   * the message from there to the final newline.
   */
  function ParseLogLine(line: string): (r: Option<(string, string)>)
    ensures r.Some? ==> LogLine(r.value.0, r.value.1) == line
  {
    if |line| == 0 || line[|line| - 1] != '\n' then None
    else
      var body := line[..|line| - 1];
      match FindSeparator(body, 0)
      case None => None
      case Some(i) =>
        assert body[i..i + 3] == " - ";
        assert body == body[..i] + body[i..i + 3] + body[i + 3..];
        assert line == body + "\n";
        Some((body[..i], body[i + 3..]))
  }

  /** A clock reading without spaces and any message are recovered from the line built of them. */
  lemma LogLineRoundTrip(iso: string, msg: string)
    requires ' ' !in iso
    ensures ParseLogLine(LogLine(iso, msg)) == Some((iso, msg))
  {
    var line := LogLine(iso, msg);
    var body := line[..|line| - 1];
    assert body == iso + " - " + msg;
    forall j | 0 <= j < |iso|
      ensures !SeparatorAt(body, j)
    {
      assert body[j] == iso[j];
    }
    assert SeparatorAt(body, |iso|);
    var f := FindSeparator(body, 0);
    assert f == Some(|iso|);
    assert line[|line| - 1] == '\n';
    assert body[..|iso|] == iso;
    assert body[|iso| + 3..] == msg;
  }

  /** A well-formed clock reading holds no space, so its log lines read back. */
  lemma IsoHasNoSpace(iso: string)
    requires IsIso(iso)
    ensures ' ' !in iso
  {
    forall i | 0 <= i < |iso|
      ensures iso[i] != ' '
    {
      assert i in {4, 7, 10, 13, 16, 19, 23} || IsDigit(iso[i]);
    }
  }

  // ---------------------------------------------------------------------
  // Catalog selection: `arquivos.filter(a => a.endsWith('.mp4'))`
  // ---------------------------------------------------------------------

  predicate EndsWith(s: string, suffix: string)
  {
    |suffix| <= |s| && s[|s| - |suffix|..] == suffix
  }

  /** The names ending in ".mp4", in the order the directory listing gives them. */
  function Mp4Files(names: seq<string>): (r: seq<string>)
    ensures |r| <= |names|
    ensures forall x :: x in r <==> x in names && EndsWith(x, VideoExtension)
  {
    if names == [] then []
    else (if EndsWith(names[0], VideoExtension) then [names[0]] else []) + Mp4Files(names[1..])
  }

  /** The selection of a concatenation is the concatenation of the selections: the order is kept. */
  lemma {:induction false} Mp4FilesAppend(a: seq<string>, b: seq<string>)
    ensures Mp4Files(a + b) == Mp4Files(a) + Mp4Files(b)
  {
    if a == [] {
      assert a + b == b;
    } else {
      assert (a + b)[1..] == a[1..] + b;
      Mp4FilesAppend(a[1..], b);
    }
  }

  /** Every file the recorder creates is one the catalog lists. */
  lemma RecordingListed(ts: string, names: seq<string>)
    requires RecordingName(ts) in names
    ensures RecordingName(ts) in Mp4Files(names)
  {
  }
}
