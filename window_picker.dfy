/** WindowPicker: the dialog that lists the open windows, sorted by application
    and title, for the user to pick one as a rule pattern. The Win32
    enumeration and the process lookups are parameters: one RawWindow per
    top-level window, in EnumWindows order. */
module WindowPicker {
  import opened Common
  import Paths

  /** One row of the list. */
  datatype WindowInfo = WindowInfo(title: string, appName: string, handle: int)

  /** WindowInfo.ToString: the title, a dash, the application name. */
  function ToString(w: WindowInfo): (r: string)
    ensures |r| == |w.title| + 3 + |w.appName|
    ensures r[..|w.title|] == w.title && r[|w.title|..|w.title| + 3] == " - " && r[|w.title| + 3..] == w.appName
  {
    w.title + " - " + w.appName
  }

  /** Reads a list row back: the text before the first " - " and the text after
      it, or None when the text has no such separator. */
  function SplitDisplay(s: string): Option<(string, string)>
  {
    if |s| < 3 then None
    else if s[..3] == " - " then Some(([], s[3..]))
    else match SplitDisplay(s[1..])
      case None => None
      case Some((before, after)) => Some(([s[0]] + before, after))
  }

  /** A row's text loses nothing when the title has no dash: reading it back
      gives the title and the application name it was made from. */
  lemma {:induction false} ToStringReadsBack(w: WindowInfo)
    requires '-' !in w.title
    ensures SplitDisplay(ToString(w)) == Some((w.title, w.appName))
  {
    DisplaySplitsAtSeparator(w.title, w.appName);
  }

  lemma {:induction false} DisplaySplitsAtSeparator(title: string, appName: string)
    requires '-' !in title
    ensures SplitDisplay(title + " - " + appName) == Some((title, appName))
    decreases |title|
  {
    var s := title + " - " + appName;
    if title == [] {
      assert s[..3] == " - " && s[3..] == appName;
    } else {
      assert s[1] != '-' by {
        if |title| > 1 { assert s[1] == title[1]; }
      }
      assert s[1..] == title[1..] + " - " + appName;
      DisplaySplitsAtSeparator(title[1..], appName);
      assert [s[0]] + title[1..] == title;
    }
  }

  // ---------------------------------------------------------------------------
  // GetApplicationName

  /** What the process lookup behind a window gave: Process.GetProcessById
      threw, or the process with its name, the main module's product name and
      file name, and whether reading the main module threw. */
  datatype ProcessProbe =
    | LookupFailed
    | ProcessInfo(processName: string, productName: Option<string>, fileName: Option<string>, moduleThrew: bool)

  /** The product name, else the executable's name without extension, else the
      process name; "Unknown" when the process cannot be found. */
  function ApplicationName(p: ProcessProbe): (r: string)
    ensures p.LookupFailed? ==> r == "Unknown"
    ensures p.ProcessInfo? && p.moduleThrew ==> r == p.processName
    ensures p.ProcessInfo? && !p.moduleThrew && NotNullOrEmpty(p.productName) ==> r == p.productName.value
    ensures p.ProcessInfo? && !p.moduleThrew && !NotNullOrEmpty(p.productName) && p.fileName.Some? ==>
      r == Paths.FileNameWithoutExtension(p.fileName.value)
    ensures p.ProcessInfo? && !p.moduleThrew && !NotNullOrEmpty(p.productName) && p.fileName.None? ==>
      r == p.processName
  {
    match p
    case LookupFailed => "Unknown"
    case ProcessInfo(processName, productName, fileName, moduleThrew) =>
      if moduleThrew then processName
      else if NotNullOrEmpty(productName) then productName.value
      else if fileName.Some? then Paths.FileNameWithoutExtension(fileName.value)
      else processName
  }

  // ---------------------------------------------------------------------------
  // GetOpenWindows

  /** A top-level window as EnumWindows reports it. */
  datatype RawWindow = RawWindow(handle: int, visible: bool, text: string, process: ProcessProbe)

  /** The windows the list shows, as a filter over the enumeration. */
  predicate Listed(w: RawWindow, pickerTitle: string)
  {
    w.visible && |w.text| > 0 && Trim(w.text) != "" && Trim(w.text) != pickerTitle
  }

  function Entry(w: RawWindow): WindowInfo
  {
    WindowInfo(Trim(w.text), ApplicationName(w.process), w.handle)
  }

  function ListedBy(pickerTitle: string): RawWindow -> bool
  {
    w => Listed(w, pickerTitle)
  }

  /** The elements that pass `keep`, mapped by f, in order (a Where then a Select). */
  function FilterMap<A, B>(xs: seq<A>, keep: A -> bool, f: A -> B): seq<B>
  {
    if xs == [] then []
    else
      var last := xs[|xs| - 1];
      FilterMap(xs[..|xs| - 1], keep, f) + (if keep(last) then [f(last)] else [])
  }

  lemma {:induction false} FilterMapComplete<A, B>(xs: seq<A>, keep: A -> bool, f: A -> B)
    ensures forall i :: 0 <= i < |xs| && keep(xs[i]) ==> f(xs[i]) in FilterMap(xs, keep, f)
  {
    if xs != [] {
      var p := xs[..|xs| - 1];
      FilterMapComplete(p, keep, f);
      assert forall i :: 0 <= i < |p| ==> xs[i] == p[i];
    }
  }

  lemma {:induction false} FilterMapSound<A, B>(xs: seq<A>, keep: A -> bool, f: A -> B)
    ensures forall y :: y in FilterMap(xs, keep, f) ==> exists i :: 0 <= i < |xs| && keep(xs[i]) && y == f(xs[i])
  {
    if xs != [] {
      var p := xs[..|xs| - 1];
      FilterMapSound(p, keep, f);
      forall y | y in FilterMap(xs, keep, f)
        ensures exists i :: 0 <= i < |xs| && keep(xs[i]) && y == f(xs[i])
      {
        if y in FilterMap(p, keep, f) {
          var i :| 0 <= i < |p| && keep(p[i]) && y == f(p[i]);
          assert xs[i] == p[i];
        } else {
          assert keep(xs[|xs| - 1]) && y == f(xs[|xs| - 1]);
        }
      }
    }
  }

  /** The listed windows in enumeration order. */
  function OpenWindows(raw: seq<RawWindow>, pickerTitle: string): seq<WindowInfo>
  {
    FilterMap(raw, ListedBy(pickerTitle), Entry)
  }

  /** Exactly the visible windows with a non-blank title other than the picker's
      own are listed, each with its trimmed title and its application name. */
  lemma OpenWindowsFilter(raw: seq<RawWindow>, pickerTitle: string)
    ensures forall i :: 0 <= i < |raw| && Listed(raw[i], pickerTitle) ==> Entry(raw[i]) in OpenWindows(raw, pickerTitle)
    ensures forall w :: w in OpenWindows(raw, pickerTitle) ==>
      exists i :: 0 <= i < |raw| && Listed(raw[i], pickerTitle) && w == Entry(raw[i])
  {
    var keep := ListedBy(pickerTitle);
    FilterMapComplete(raw, keep, Entry);
    FilterMapSound(raw, keep, Entry);
    assert forall i :: 0 <= i < |raw| ==> keep(raw[i]) == Listed(raw[i], pickerTitle);
  }

  /** A listed window's title is trimmed, non-empty and not the picker's own. */
  predicate GoodTitle(title: string, pickerTitle: string)
  {
    title != "" && title != pickerTitle && !IsWhiteSpace(title[0]) && !IsWhiteSpace(title[|title| - 1])
  }

  lemma ListedTitle(x: RawWindow, pickerTitle: string)
    requires Listed(x, pickerTitle)
    ensures GoodTitle(Entry(x).title, pickerTitle)
  {
    TrimmedEnds(x.text);
  }

  lemma OpenWindowsTitles(raw: seq<RawWindow>, pickerTitle: string)
    ensures forall w :: w in OpenWindows(raw, pickerTitle) ==> GoodTitle(w.title, pickerTitle)
  {
    OpenWindowsFilter(raw, pickerTitle);
    forall w | w in OpenWindows(raw, pickerTitle)
      ensures GoodTitle(w.title, pickerTitle)
    {
      var i :| 0 <= i < |raw| && Listed(raw[i], pickerTitle) && w == Entry(raw[i]);
      ListedTitle(raw[i], pickerTitle);
    }
  }

  /** The EnumWindows callback loop: each window that passes the checks is
      appended to the result. */
  method GetOpenWindows(raw: seq<RawWindow>, pickerTitle: string) returns (result: seq<WindowInfo>)
    ensures result == OpenWindows(raw, pickerTitle)
  {
    result := [];
    for i := 0 to |raw|
      invariant result == OpenWindows(raw[..i], pickerTitle)
    {
      assert raw[..i + 1][..i] == raw[..i];
      var w := raw[i];
      if w.visible {
        var length := |w.text|;
        if length > 0 {
          var title := Trim(w.text);
          if title != "" {
            var appName := ApplicationName(w.process);
            if title != pickerTitle {
              result := result + [WindowInfo(title, appName, w.handle)];
            }
          }
        }
      }
    }
    assert raw[..|raw|] == raw;
  }

  // ---------------------------------------------------------------------------
  // The comparator: application name, then title, ordinal ignoring case.

  /** String.CompareOrdinal: the sign of the first difference in code units, a
      proper prefix coming first. */
  function CompareOrdinal(a: string, b: string): (c: int)
    ensures -1 <= c <= 1
    ensures c == 0 <==> a == b
  {
    if a == [] && b == [] then 0
    else if a == [] then -1
    else if b == [] then 1
    else if a[0] < b[0] then -1
    else if a[0] > b[0] then 1
    else
      assert a == [a[0]] + a[1..] && b == [b[0]] + b[1..];
      CompareOrdinal(a[1..], b[1..])
  }

  lemma {:induction false} CompareOrdinalAntisymmetric(a: string, b: string)
    ensures CompareOrdinal(a, b) == -CompareOrdinal(b, a)
  {
    if a != [] && b != [] && a[0] == b[0] {
      CompareOrdinalAntisymmetric(a[1..], b[1..]);
    }
  }

  lemma {:induction false} CompareOrdinalTransitive(a: string, b: string, c: string)
    requires CompareOrdinal(a, b) <= 0 && CompareOrdinal(b, c) <= 0
    ensures CompareOrdinal(a, c) <= 0
  {
    if a != [] && b != [] && c != [] && a[0] == b[0] && b[0] == c[0] {
      CompareOrdinalTransitive(a[1..], b[1..], c[1..]);
    }
  }

  /** string.Compare(a, b, StringComparison.OrdinalIgnoreCase). */
  function CompareIgnoreCase(a: string, b: string): (c: int)
    ensures c == 0 <==> EqualsIgnoreCase(a, b)
  {
    CompareOrdinal(FoldUpper(a), FoldUpper(b))
  }

  /** The comparison the constructor sorts with. */
  function CompareWindows(a: WindowInfo, b: WindowInfo): int
  {
    var appCompare := CompareIgnoreCase(a.appName, b.appName);
    if appCompare != 0 then appCompare else CompareIgnoreCase(a.title, b.title)
  }

  /** The comparator is a total preorder: any two windows are ordered one way or
      the other, and the order is transitive. */
  lemma CompareWindowsTotalPreorder(a: WindowInfo, b: WindowInfo, c: WindowInfo)
    ensures CompareWindows(a, b) == -CompareWindows(b, a)
    ensures CompareWindows(a, b) <= 0 && CompareWindows(b, c) <= 0 ==> CompareWindows(a, c) <= 0
  {
    CompareOrdinalAntisymmetric(FoldUpper(a.appName), FoldUpper(b.appName));
    CompareOrdinalAntisymmetric(FoldUpper(a.title), FoldUpper(b.title));
    if CompareWindows(a, b) <= 0 && CompareWindows(b, c) <= 0 {
      var ab := CompareIgnoreCase(a.appName, b.appName);
      var bc := CompareIgnoreCase(b.appName, c.appName);
      CompareOrdinalTransitive(FoldUpper(a.appName), FoldUpper(b.appName), FoldUpper(c.appName));
      if ab == 0 && bc == 0 {
        CompareOrdinalTransitive(FoldUpper(a.title), FoldUpper(b.title), FoldUpper(c.title));
      } else if CompareIgnoreCase(a.appName, c.appName) == 0 {
        // a and c have the same folded name, so b lies between equals.
        CompareOrdinalAntisymmetric(FoldUpper(b.appName), FoldUpper(c.appName));
        CompareOrdinalTransitive(FoldUpper(b.appName), FoldUpper(c.appName), FoldUpper(a.appName));
      }
    }
  }

  // ---------------------------------------------------------------------------
  // List.Sort with that comparator.

  predicate ComesBefore(a: WindowInfo, b: WindowInfo)
  {
    CompareWindows(a, b) <= 0
  }

  predicate SortedWindows(s: seq<WindowInfo>)
  {
    forall i, j :: 0 <= i < j < |s| ==> ComesBefore(s[i], s[j])
  }

  /** Each window is in order with the next one. */
  predicate InOrderWithNext(s: seq<WindowInfo>)
  {
    forall i :: 0 <= i < |s| - 1 ==> ComesBefore(s[i], s[i + 1])
  }

  /** By transitivity, neighbours in order means every pair in order. */
  lemma {:induction false} InOrderWithNextSorted(s: seq<WindowInfo>)
    requires InOrderWithNext(s)
    ensures SortedWindows(s)
  {
    if |s| >= 2 {
      var t := s[1..];
      assert InOrderWithNext(t) by {
        forall i | 0 <= i < |t| - 1 ensures ComesBefore(t[i], t[i + 1]) {
          assert t[i] == s[i + 1] && t[i + 1] == s[i + 2];
        }
      }
      InOrderWithNextSorted(t);
      forall i, j | 0 <= i < j < |s| ensures ComesBefore(s[i], s[j]) {
        if i == 0 {
          if j > 1 {
            assert s[1] == t[0] && s[j] == t[j - 1];
            CompareWindowsTotalPreorder(s[0], s[1], s[j]);
          }
        } else {
          assert s[i] == t[i - 1] && s[j] == t[j - 1];
        }
      }
    }
  }

  /** Inserts x before the first element it comes before. */
  function InsertBy<T>(x: T, s: seq<T>, before: (T, T) -> bool): (r: seq<T>)
    ensures |r| == |s| + 1
    ensures r[0] == x || (s != [] && r[0] == s[0])
  {
    if s == [] || before(x, s[0]) then [x] + s
    else [s[0]] + InsertBy(x, s[1..], before)
  }

  function SortBy<T>(s: seq<T>, before: (T, T) -> bool): (r: seq<T>)
    ensures |r| == |s|
  {
    if s == [] then [] else InsertBy(s[0], SortBy(s[1..], before), before)
  }

  lemma {:induction false} InsertByPermutes<T>(x: T, s: seq<T>, before: (T, T) -> bool)
    ensures multiset(InsertBy(x, s, before)) == multiset(s) + multiset{x}
  {
    if s != [] && !before(x, s[0]) {
      InsertByPermutes(x, s[1..], before);
      assert s == [s[0]] + s[1..];
    }
  }

  lemma {:induction false} SortByPermutes<T>(s: seq<T>, before: (T, T) -> bool)
    ensures multiset(SortBy(s, before)) == multiset(s)
  {
    if s != [] {
      SortByPermutes(s[1..], before);
      InsertByPermutes(s[0], SortBy(s[1..], before), before);
      assert s == [s[0]] + s[1..];
    }
  }

  /** List.Sort with the constructor's comparison. */
  function SortWindows(s: seq<WindowInfo>): (r: seq<WindowInfo>)
    ensures |r| == |s|
  {
    SortBy(s, ComesBefore)
  }

  lemma {:induction false} InsertWindowInOrder(w: WindowInfo, s: seq<WindowInfo>)
    requires InOrderWithNext(s)
    ensures InOrderWithNext(InsertBy(w, s, ComesBefore))
  {
    if s != [] && !ComesBefore(w, s[0]) {
      var t := InsertBy(w, s[1..], ComesBefore);
      assert InOrderWithNext(s[1..]) by {
        forall i | 0 <= i < |s| - 2 ensures ComesBefore(s[1..][i], s[1..][i + 1]) {
          assert s[1..][i] == s[i + 1] && s[1..][i + 1] == s[i + 2];
        }
      }
      InsertWindowInOrder(w, s[1..]);
      CompareWindowsTotalPreorder(w, s[0], w);
      var r := [s[0]] + t;
      assert ComesBefore(s[0], t[0]);
      forall i | 0 <= i < |r| - 1 ensures ComesBefore(r[i], r[i + 1]) {
        if i > 0 {
          assert r[i] == t[i - 1] && r[i + 1] == t[i];
        }
      }
    }
  }

  lemma {:induction false} SortWindowsInOrder(s: seq<WindowInfo>)
    ensures InOrderWithNext(SortBy(s, ComesBefore))
  {
    if s != [] {
      SortWindowsInOrder(s[1..]);
      InsertWindowInOrder(s[0], SortBy(s[1..], ComesBefore));
    }
  }

  /** The constructor's sort orders the windows by application name, then title,
      and keeps every window exactly as often as it was listed. */
  lemma SortWindowsCorrect(s: seq<WindowInfo>)
    ensures SortedWindows(SortWindows(s))
    ensures multiset(SortWindows(s)) == multiset(s)
  {
    SortWindowsInOrder(s);
    InOrderWithNextSorted(SortWindows(s));
    SortByPermutes(s, ComesBefore);
  }

  // ---------------------------------------------------------------------------
  // The dialog.

  class WindowPickerDialog {
    /** The window's own title, which the list leaves out. */
    var title: string
    var windows: seq<WindowInfo>
    /** WindowList.SelectedIndex, -1 for none. */
    var selectedIndex: int
    var selectedWindow: Option<WindowInfo>
    /** Window.DialogResult; None while the dialog is open. */
    var dialogResult: Option<bool>
    var closed: bool

    ghost predicate Valid()
      reads this
    {
      -1 <= selectedIndex < |windows|
    }

    /** The constructor: the listed windows, sorted, with the first selected
        when there is one. */
    constructor (raw: seq<RawWindow>, title: string)
      ensures Valid()
      ensures this.title == title && windows == SortWindows(OpenWindows(raw, title))
      ensures selectedIndex == if windows == [] then -1 else 0
      ensures selectedWindow == None && dialogResult == None && !closed
    {
      this.title := title;
      selectedWindow := None;
      dialogResult := None;
      closed := false;
      var listed := GetOpenWindows(raw, title);
      var sorted := SortWindows(listed);
      windows := sorted;
      selectedIndex := if |sorted| > 0 then 0 else -1;
    }

    /** The user selects a row, or clears the selection with -1. */
    method Select(index: int)
      requires Valid() && -1 <= index < |windows|
      modifies `selectedIndex
      ensures Valid() && selectedIndex == index
    {
      selectedIndex := index;
    }

    /** OK_Click: with a selected row the dialog closes with result true and
        that window; without one it stays open and nothing is chosen. */
    method OK()
      requires Valid()
      modifies `selectedWindow, `dialogResult, `closed
      ensures Valid()
      ensures selectedIndex >= 0 ==>
        selectedWindow == Some(windows[selectedIndex]) && dialogResult == Some(true) && closed
      ensures selectedIndex < 0 ==>
        selectedWindow == None && dialogResult == old(dialogResult) && closed == old(closed)
    {
      selectedWindow := if selectedIndex >= 0 then Some(windows[selectedIndex]) else None;
      if selectedWindow.Some? {
        dialogResult := Some(true);
        closed := true;
      }
    }

    /** Cancel_Click: the dialog closes with result false. */
    method Cancel()
      modifies `dialogResult, `closed
      ensures dialogResult == Some(false) && closed
    {
      dialogResult := Some(false);
      closed := true;
    }

    /** What ShowDialog hands back to the caller: a window only when the dialog
        was accepted with one selected. */
    function Picked(): (r: Option<WindowInfo>)
      reads this
      ensures r.Some? <==> dialogResult == Some(true) && selectedWindow.Some?
      ensures r.Some? ==> r == selectedWindow
    {
      if dialogResult == Some(true) then selectedWindow else None
    }
  }
}
