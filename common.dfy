/** Shared vocabulary of the DueTime model: the entity records, an Option type for
    the source's nullable values, and the .NET string operations the core relies on
    (ordinal-ignore-case comparison, char.IsWhiteSpace, Trim, Contains, Join and
    decimal formatting of integers). */
module Common {

  datatype Option<T> = None | Some(value: T)

  /** Time is measured in .NET ticks (100 ns); DateTime.MinValue is tick 0. */
  const TicksPerMinute: int := 600_000_000
  const TicksPerHour: int := 60 * TicksPerMinute
  const TicksPerDay: int := 24 * TicksPerHour
  const MinValue: int := 0

  /** One time entry. The repository's and the tracker's records have the same
      fields, so one datatype serves both. */
  datatype TimeEntry = TimeEntry(
    id: int,
    startTime: int,
    endTime: int,
    windowTitle: string,
    applicationName: string,
    projectId: Option<int>,
    projectName: Option<string>)

  datatype Project = Project(projectId: int, name: string)

  datatype Rule = Rule(id: int, pattern: string, projectId: int, projectName: Option<string>)

  /** An unsigned 32-bit value (uint / DWORD). */
  newtype uint32 = x: int | 0 <= x < 0x1_0000_0000

  const UInt32MaxValue: int := 0xFFFF_FFFF

  /** What the Win32 foreground-window probe returns: an exception from one of its
      calls, no foreground window (a zero handle), or the window's title with the
      owning process's name (None when Process.GetProcessById throws). */
  datatype ForegroundProbe =
    | ProbeThrew
    | NoForegroundWindow
    | ForegroundWindow(title: string, processName: Option<string>)

  /** !string.IsNullOrEmpty(s) for a nullable string. */
  predicate NotNullOrEmpty(s: Option<string>)
  {
    s.Some? && s.value != ""
  }

  /** The application name the trackers record: the process name, or "Unknown". */
  function ProcessNameOrUnknown(processName: Option<string>): string
  {
    if processName.Some? then processName.value else "Unknown"
  }

  /** The duration of an entry in ticks (EndTime - StartTime). */
  function Duration(e: TimeEntry): int
  {
    e.endTime - e.startTime
  }

  // ---------------------------------------------------------------------------
  // Integer division as C# performs it on the integral part of a double: it
  // truncates toward zero, unlike Dafny's Euclidean division.

  function TruncDiv(a: int, b: int): (q: int)
    requires b > 0
    ensures a >= 0 ==> q >= 0 && 0 <= a - q * b < b
    ensures a < 0 ==> q <= 0 && -b < a - q * b <= 0
  {
    if a >= 0 then a / b else -((-a) / b)
  }

  /** C#'s remainder: it takes the sign of the dividend. */
  function TruncRem(a: int, b: int): (r: int)
    requires b > 0
    ensures a >= 0 ==> 0 <= r < b
    ensures a < 0 ==> -b < r <= 0
    ensures a == TruncDiv(a, b) * b + r
  {
    a - TruncDiv(a, b) * b
  }

  // ---------------------------------------------------------------------------
  // Ordinal-ignore-case: .NET maps both sides to upper case before comparing.
  // Only the ASCII letters are folded here.

  function Upper(c: char): char
  {
    if 'a' <= c <= 'z' then (c as int - 32) as char else c
  }

  function FoldUpper(s: string): (r: string)
    ensures |r| == |s|
    ensures forall i :: 0 <= i < |s| ==> r[i] == Upper(s[i])
  {
    seq(|s|, i requires 0 <= i < |s| => Upper(s[i]))
  }

  /** Lower-case mapping of the ASCII letters (String.ToLower on them). */
  function Lower(c: char): char
  {
    if 'A' <= c <= 'Z' then (c as int + 32) as char else c
  }

  function FoldLower(s: string): (r: string)
    ensures |r| == |s|
    ensures forall i :: 0 <= i < |s| ==> r[i] == Lower(s[i])
  {
    seq(|s|, i requires 0 <= i < |s| => Lower(s[i]))
  }

  predicate EqualsIgnoreCase(a: string, b: string)
  {
    FoldUpper(a) == FoldUpper(b)
  }

  /** Upper-casing leaves no ASCII lower-case letter, is idempotent, forgets any
      earlier lower-casing, and keeps a string equal to its input ignoring case. */
  lemma {:induction false} FoldUpperNormalises(s: string)
    ensures forall i :: 0 <= i < |s| ==> !('a' <= FoldUpper(s)[i] <= 'z')
    ensures FoldUpper(FoldUpper(s)) == FoldUpper(s)
    ensures FoldUpper(FoldLower(s)) == FoldUpper(s)
    ensures EqualsIgnoreCase(FoldUpper(s), s)
  {
    assert FoldUpper(FoldUpper(s)) == FoldUpper(s) by {
      forall i | 0 <= i < |s| ensures FoldUpper(FoldUpper(s))[i] == FoldUpper(s)[i] {}
    }
    assert FoldUpper(FoldLower(s)) == FoldUpper(s) by {
      forall i | 0 <= i < |s| ensures FoldUpper(FoldLower(s))[i] == FoldUpper(s)[i] {}
    }
  }

  /** Lower-casing leaves no ASCII upper-case letter, is idempotent, forgets any
      earlier upper-casing, and keeps a string equal to its input ignoring case. */
  lemma {:induction false} FoldLowerNormalises(s: string)
    ensures forall i :: 0 <= i < |s| ==> !('A' <= FoldLower(s)[i] <= 'Z')
    ensures FoldLower(FoldLower(s)) == FoldLower(s)
    ensures FoldLower(FoldUpper(s)) == FoldLower(s)
    ensures EqualsIgnoreCase(FoldLower(s), s)
  {
    assert FoldLower(FoldLower(s)) == FoldLower(s) by {
      forall i | 0 <= i < |s| ensures FoldLower(FoldLower(s))[i] == FoldLower(s)[i] {}
    }
    assert FoldLower(FoldUpper(s)) == FoldLower(s) by {
      forall i | 0 <= i < |s| ensures FoldLower(FoldUpper(s))[i] == FoldLower(s)[i] {}
    }
    FoldUpperNormalises(s);
  }

  predicate OccursAt(needle: string, hay: string, i: int)
  {
    0 <= i && i + |needle| <= |hay| && hay[i..i + |needle|] == needle
  }

  /** `needle` is a contiguous part of `hay` (String.Contains / IndexOf >= 0). */
  predicate IsSubstring(needle: string, hay: string)
  {
    exists i :: 0 <= i <= |hay| - |needle| && OccursAt(needle, hay, i)
  }

  /** hay.Contains(needle, StringComparison.OrdinalIgnoreCase) */
  predicate ContainsIgnoreCase(hay: string, needle: string)
  {
    IsSubstring(FoldUpper(needle), FoldUpper(hay))
  }

  lemma {:induction false} EqualImpliesContains(a: string, b: string)
    requires EqualsIgnoreCase(a, b)
    ensures ContainsIgnoreCase(a, b) && ContainsIgnoreCase(b, a)
  {
    assert OccursAt(FoldUpper(b), FoldUpper(a), 0);
    assert OccursAt(FoldUpper(a), FoldUpper(b), 0);
  }

  /** The empty string is contained in every string, as in .NET. */
  lemma EmptyIsContained(hay: string)
    ensures ContainsIgnoreCase(hay, "")
  {
    assert OccursAt(FoldUpper(""), FoldUpper(hay), 0);
  }

  // ---------------------------------------------------------------------------
  // char.IsWhiteSpace, string.IsNullOrWhiteSpace and string.Trim.

  /** The characters .NET classifies as white space: the Unicode space separators,
      the line and paragraph separators, and U+0009-U+000D, U+0085. */
  predicate IsWhiteSpace(c: char)
  {
    c == ' ' || ('\t' <= c <= '\r') || c == '\U{0085}' || c == '\U{00A0}' ||
    c == '\U{1680}' || ('\U{2000}' <= c <= '\U{200A}') || c == '\U{2028}' || c == '\U{2029}' ||
    c == '\U{202F}' || c == '\U{205F}' || c == '\U{3000}'
  }

  predicate IsBlank(s: string)
  {
    forall i :: 0 <= i < |s| ==> IsWhiteSpace(s[i])
  }

  /** String.TrimStart(): the suffix left after dropping the leading white space. */
  function TrimStart(s: string): (r: string)
    ensures |r| <= |s| && r == s[|s| - |r|..]
    ensures forall i :: 0 <= i < |s| - |r| ==> IsWhiteSpace(s[i])
    ensures r != [] ==> !IsWhiteSpace(r[0])
  {
    if |s| > 0 && IsWhiteSpace(s[0]) then TrimStart(s[1..]) else s
  }

  /** String.TrimEnd(): the prefix left after dropping the trailing white space. */
  function TrimEnd(s: string): (r: string)
    ensures |r| <= |s| && r == s[..|r|]
    ensures forall i :: |r| <= i < |s| ==> IsWhiteSpace(s[i])
    ensures r != [] ==> !IsWhiteSpace(r[|r| - 1])
  {
    if |s| > 0 && IsWhiteSpace(s[|s| - 1]) then TrimEnd(s[..|s| - 1]) else s
  }

  function Trim(s: string): string
  {
    TrimEnd(TrimStart(s))
  }

  /** Trimming leaves nothing exactly when the string is null-or-white-space, so
      a name accepted by a !IsNullOrWhiteSpace guard is stored non-empty. */
  lemma TrimEmptyIffBlank(s: string)
    ensures Trim(s) == "" <==> IsBlank(s)
  {
    var t := TrimStart(s);
    if Trim(s) != "" {
      assert !IsWhiteSpace(Trim(s)[0]);
      assert Trim(s)[0] == t[0] == s[|s| - |t|];
    }
  }

  /** Trim yields a string with no white space at either end. */
  lemma TrimmedEnds(s: string)
    ensures Trim(s) != [] ==> !IsWhiteSpace(Trim(s)[0]) && !IsWhiteSpace(Trim(s)[|Trim(s)| - 1])
    ensures Trim(Trim(s)) == Trim(s)
  {
    var t := Trim(s);
    if t != [] {
      assert t[0] == TrimStart(s)[0];
    }
  }

  // ---------------------------------------------------------------------------
  // string.Join and integer formatting.

  /** The combined length of the parts. */
  function TotalLength(parts: seq<string>): nat
  {
    if parts == [] then 0 else TotalLength(parts[..|parts| - 1]) + |parts[|parts| - 1]|
  }

  /** string.Join: the parts in order with one separator between neighbours and
      none at either end. */
  function Join(sep: string, parts: seq<string>): (r: string)
    ensures parts == [] ==> r == ""
    ensures |parts| == 1 ==> r == parts[0]
    ensures |parts| >= 1 ==> |r| == TotalLength(parts) + (|parts| - 1) * |sep|
  {
    if |parts| == 0 then ""
    else if |parts| == 1 then parts[0]
    else Join(sep, parts[..|parts| - 1]) + sep + parts[|parts| - 1]
  }

  /** The first part opens the joined string and the last part closes it. */
  lemma {:induction false} JoinEnds(sep: string, parts: seq<string>)
    requires parts != []
    ensures var r := Join(sep, parts);
      |parts[0]| <= |r| && r[..|parts[0]|] == parts[0] &&
      |parts[|parts| - 1]| <= |r| && r[|r| - |parts[|parts| - 1]|..] == parts[|parts| - 1]
    decreases |parts|
  {
    if |parts| > 1 {
      var init := parts[..|parts| - 1];
      JoinEnds(sep, init);
      assert init[0] == parts[0];
      var j := Join(sep, init);
      assert Join(sep, parts) == j + sep + parts[|parts| - 1];
      assert (j + sep + parts[|parts| - 1])[..|parts[0]|] == j[..|parts[0]|];
    }
  }

  /** Joining two non-empty lists of parts is joining each and putting one
      separator between them: Join is associative in its parts. */
  lemma {:induction false} JoinAppend(sep: string, a: seq<string>, b: seq<string>)
    requires a != [] && b != []
    ensures Join(sep, a + b) == Join(sep, a) + sep + Join(sep, b)
    decreases |b|
  {
    if |b| > 1 {
      var b' := b[..|b| - 1];
      assert (a + b)[..|a + b| - 1] == a + b';
      JoinAppend(sep, a, b');
    } else {
      assert (a + b)[..|a + b| - 1] == a;
    }
  }

  function DigitChar(d: int): char
    requires 0 <= d < 10
  {
    ('0' as int + d) as char
  }

  /** The decimal digits of a natural number, most significant first. */
  function NatToString(n: nat): (r: string)
    ensures |r| >= 1
    ensures forall i :: 0 <= i < |r| ==> '0' <= r[i] <= '9'
    ensures |r| > 1 ==> r[0] != '0'
  {
    if n < 10 then [DigitChar(n)] else NatToString(n / 10) + [DigitChar(n % 10)]
  }

  /** Int32.ToString() for the invariant culture: an optional minus sign, then digits. */
  function IntToString(i: int): string
  {
    if i < 0 then "-" + NatToString(-i) else NatToString(i)
  }

  function DigitsValue(s: string): int
  {
    if s == [] then 0 else DigitsValue(s[..|s| - 1]) * 10 + (s[|s| - 1] as int - '0' as int)
  }

  /** Reading the digits back gives the number: the formatting loses nothing. */
  lemma {:induction false} NatToStringRoundTrip(n: nat)
    ensures DigitsValue(NatToString(n)) == n
  {
    if n >= 10 {
      NatToStringRoundTrip(n / 10);
      var s := NatToString(n);
      assert s[..|s| - 1] == NatToString(n / 10);
    }
  }

  // ---------------------------------------------------------------------------
  // Enumerable.FirstOrDefault over the project list, by name and by id.

  /** The index of the first project whose name equals `name` ignoring case. */
  function FindProjectByName(projects: seq<Project>, name: string): (r: Option<nat>)
    ensures r.Some? ==> r.value < |projects| && EqualsIgnoreCase(projects[r.value].name, name)
    ensures r.Some? ==> forall j :: 0 <= j < r.value ==> !EqualsIgnoreCase(projects[j].name, name)
    ensures r.None? ==> forall j :: 0 <= j < |projects| ==> !EqualsIgnoreCase(projects[j].name, name)
  {
    if |projects| == 0 then None
    else if EqualsIgnoreCase(projects[0].name, name) then Some(0)
    else match FindProjectByName(projects[1..], name)
      case None => None
      case Some(k) => Some(k + 1)
  }

  /** The index of the first project with the given id. */
  function FindProjectById(projects: seq<Project>, id: int): (r: Option<nat>)
    ensures r.Some? ==> r.value < |projects| && projects[r.value].projectId == id
    ensures r.Some? ==> forall j :: 0 <= j < r.value ==> projects[j].projectId != id
    ensures r.None? ==> forall j :: 0 <= j < |projects| ==> projects[j].projectId != id
  {
    if |projects| == 0 then None
    else if projects[0].projectId == id then Some(0)
    else match FindProjectById(projects[1..], id)
      case None => None
      case Some(k) => Some(k + 1)
  }

  /** The names of the projects, one per project, in project order. */
  function Names(projects: seq<Project>): (r: seq<string>)
    ensures |r| == |projects| && forall i :: 0 <= i < |r| ==> r[i] == projects[i].name
  {
    seq(|projects|, i requires 0 <= i < |projects| => projects[i].name)
  }

  /** The list of names offered to the AI is exactly the set of names of the
      projects, and every name on it leads back to a project by name lookup. */
  lemma NamesListsEveryProject(projects: seq<Project>, n: string)
    ensures n in Names(projects) <==> exists p :: p in projects && p.name == n
    ensures n in Names(projects) ==> FindProjectByName(projects, n).Some?
  {
    if n in Names(projects) {
      var i :| 0 <= i < |projects| && Names(projects)[i] == n;
      assert projects[i] in projects;
      assert EqualsIgnoreCase(projects[i].name, n);
    }
    if exists p :: p in projects && p.name == n {
      var p :| p in projects && p.name == n;
      var i :| 0 <= i < |projects| && projects[i] == p;
      assert Names(projects)[i] == n;
    }
  }
}
