/**
 * `ReportGenerator`: the report file name and its parse back in `_scan_reports`, the
 * template contexts of `generate_report` and `generate_index`, and `_static_url`.
 * Rendering, file writes, directory creation and the copy of the static files are I/O and
 * are not modelled: the directory's file names are an input and a page is its context.
 */
module ReportGenerator {
  import opened Wrappers
  import opened JsonValue
  import opened PyText
  import opened Config
  import opened Skills
  import opened Registry

  // ------------------------------------------------------------------ calendar

  /** A `datetime` down to the second (`strftime` here never prints microseconds). */
  datatype DateTime = DateTime(year: nat, month: nat, day: nat, hour: nat, minute: nat, second: nat)

  predicate IsLeapYear(y: nat) {
    y % 4 == 0 && (y % 100 != 0 || y % 400 == 0)
  }

  function DaysInMonth(y: nat, m: nat): nat
    requires 1 <= m <= 12
  {
    if m == 2 then (if IsLeapYear(y) then 29 else 28)
    else if m == 4 || m == 6 || m == 9 || m == 11 then 30
    else 31
  }

  /** The values `datetime` accepts. */
  predicate ValidDateTime(dt: DateTime) {
    && 1 <= dt.year <= 9999
    && 1 <= dt.month <= 12
    && 1 <= dt.day <= DaysInMonth(dt.year, dt.month)
    && dt.hour < 24 && dt.minute < 60 && dt.second < 60
  }

  /** `%Y%m%d`. */
  function DateDigits(dt: DateTime): (r: string)
    ensures |r| == 8 && AllDigits(r)
  {
    ZeroPad(dt.year, 4) + ZeroPad(dt.month, 2) + ZeroPad(dt.day, 2)
  }

  /** `%H%M%S`. */
  function TimeDigits(dt: DateTime): (r: string)
    ensures |r| == 6 && AllDigits(r)
  {
    ZeroPad(dt.hour, 2) + ZeroPad(dt.minute, 2) + ZeroPad(dt.second, 2)
  }

  /** `%Y-%m-%d %H:%M`, the date shown for a scanned report. */
  function MinuteText(dt: DateTime): string {
    ZeroPad(dt.year, 4) + "-" + ZeroPad(dt.month, 2) + "-" + ZeroPad(dt.day, 2) + " "
    + ZeroPad(dt.hour, 2) + ":" + ZeroPad(dt.minute, 2)
  }

  /** `%Y-%m-%d %H:%M:%S`, the `generated_at` of both pages. */
  function SecondText(dt: DateTime): string {
    MinuteText(dt) + ":" + ZeroPad(dt.second, 2)
  }

  /** `%Y年%m月%d日 %H:%M`, the `report_date` of a report. */
  function ReportDateText(dt: DateTime): string {
    ZeroPad(dt.year, 4) + "年" + ZeroPad(dt.month, 2) + "月" + ZeroPad(dt.day, 2) + "日 "
    + ZeroPad(dt.hour, 2) + ":" + ZeroPad(dt.minute, 2)
  }

  /**
   * `datetime.strptime(date + "_" + time, "%Y%m%d_%H%M%S")` for a date of eight digits
   * and a time of six, the only form of the stamp this model accepts: the fields are read
   * as numbers and the result must be a real date and time.
   */
  function ParseStamp(date: string, time: string): (r: Option<DateTime>)
    ensures r.Some? ==> ValidDateTime(r.value)
  {
    if |date| == 8 && |time| == 6 && AllDigits(date) && AllDigits(time) then
      var dt := DateTime(ParseDecimal(date[..4]), ParseDecimal(date[4..6]), ParseDecimal(date[6..]),
        ParseDecimal(time[..2]), ParseDecimal(time[2..4]), ParseDecimal(time[4..]));
      if ValidDateTime(dt) then Some(dt) else None
    else None
  }

  // ------------------------------------------------------------------ file names

  /** The name `generate_report` writes: `<skill>_<YYYYMMDD>_<HHMMSS>.html`. */
  function ReportFileName(skill: string, now: DateTime): string {
    skill + "_" + DateDigits(now) + "_" + TimeDigits(now) + ".html"
  }

  /** `Path(name).stem`: the name without its last suffix, a suffix being a final `.` part that neither starts nor ends the name. */
  function Stem(name: string): (r: string)
    ensures |r| <= |name| && r == name[..|r|]
  {
    match LastIndexOf(name, '.')
    case None => name
    case Some(i) => if 0 < i < |name| - 1 then name[..i] else name
  }

  /** One entry of the index's report list. */
  datatype ReportEntry = ReportEntry(url: string, skillName: string, title: string, date: string, summary: string)

  /** The name `index.html` is never a report. */
  const IndexName: string := "index.html"

  /** `ReportEntry` of a scanned file. */
  function EntryFor(name: string, skill: string, dt: DateTime): ReportEntry {
    ReportEntry(name, skill, skill + " 报告", MinuteText(dt), "")
  }

  /**
   * The body of the `_scan_reports` loop for one file: `index.html` is skipped; the stem is
   * right-split into at most three parts at `_`; fewer than three parts, or a stamp that
   * does not parse, is skipped.
   */
  function ScanEntry(name: string): Option<ReportEntry> {
    if name == IndexName then None
    else
      var parts := RSplit(Stem(name), '_', 2);
      if |parts| < 3 then None
      else match ParseStamp(parts[1], parts[2])
        case None => None
        case Some(dt) => Some(EntryFor(name, parts[0], dt))
  }

  /** Every skill name is given back exactly by the scan of its report file, even one that contains `_` or `.`. */
  lemma ReportFileNameRoundTrip(skill: string, now: DateTime)
    requires ValidDateTime(now)
    ensures ScanEntry(ReportFileName(skill, now)) == Some(EntryFor(ReportFileName(skill, now), skill, now))
  {
    ReportStemSplits(skill, now);
    StampRoundTrip(now);
  }

  /** A report file is not the index, and its stem right-splits into the skill name, the date digits and the time digits. */
  lemma ReportStemSplits(skill: string, now: DateTime)
    ensures var name := ReportFileName(skill, now);
      name != IndexName && RSplit(Stem(name), '_', 2) == [skill, DateDigits(now), TimeDigits(now)]
  {
    var date, time := DateDigits(now), TimeDigits(now);
    ReportStem(skill, now);
    assert '_' !in time && '_' !in date by {
      assert !IsDigit('_');
    }
    SplitThree(skill, date, time);
  }

  /** The stem of a report file is its name without `.html`; the name is never `index.html`. */
  lemma ReportStem(skill: string, now: DateTime)
    ensures var name := ReportFileName(skill, now);
      name != IndexName && Stem(name) == skill + "_" + DateDigits(now) + "_" + TimeDigits(now)
  {
    var stem := skill + "_" + DateDigits(now) + "_" + TimeDigits(now);
    var name := ReportFileName(skill, now);
    assert name == stem + "." + "html";
    assert name != IndexName by { assert |name| > |IndexName|; }
    assert name[|stem| + 1..] == "html";
    LastIndexOfAt(name, '.', |stem|);
    assert name[..|stem|] == stem;
  }

  /** Joining three parts with `_`, the last two free of `_`, right-splits back into those parts. */
  lemma SplitThree(a: string, b: string, c: string)
    requires '_' !in b && '_' !in c
    ensures RSplit(a + "_" + b + "_" + c, '_', 2) == [a, b, c]
  {
    RSplitAtLast(a + "_" + b, '_', c, 2);
    RSplitAtLast(a, '_', b, 1);
  }

  /** The digits of a valid date and time read back as that date and time. */
  lemma StampRoundTrip(dt: DateTime)
    requires ValidDateTime(dt)
    ensures ParseStamp(DateDigits(dt), TimeDigits(dt)) == Some(dt)
  {
    var date, time := DateDigits(dt), TimeDigits(dt);
    assert Pow10(2) == 100 && Pow10(4) == 10000;
    assert date[..4] == ZeroPad(dt.year, 4) && date[4..6] == ZeroPad(dt.month, 2) && date[6..] == ZeroPad(dt.day, 2);
    assert time[..2] == ZeroPad(dt.hour, 2) && time[2..4] == ZeroPad(dt.minute, 2) && time[4..] == ZeroPad(dt.second, 2);
    ZeroPadRoundTrip(dt.year, 4);
    ZeroPadRoundTrip(dt.month, 2);
    ZeroPadRoundTrip(dt.day, 2);
    ZeroPadRoundTrip(dt.hour, 2);
    ZeroPadRoundTrip(dt.minute, 2);
    ZeroPadRoundTrip(dt.second, 2);
  }

  /** Conversely, every `.html` file the scan accepts is the report file of the skill and time it lists. */
  lemma ScannedFileIsReportFile(name: string)
    requires EndsWith(name, ".html") && ScanEntry(name).Some?
    ensures var e := ScanEntry(name).value;
      exists dt :: ValidDateTime(dt) && name == ReportFileName(e.skillName, dt) && e == EntryFor(name, e.skillName, dt)
  {
    BareSuffixSkipped();
    HtmlStem(name);
    var stem := Stem(name);
    var parts := RSplit(stem, '_', 2);
    var dt := ParseStamp(parts[1], parts[2]).value;
    ThreeParts(stem);
    StampDigits(parts[1], parts[2]);
    assert name == ReportFileName(parts[0], dt);
  }

  /** A file named just `.html` has no stem to split and is skipped. */
  lemma BareSuffixSkipped()
    ensures ScanEntry(".html") == None
  {
    assert LastIndexOf(".html", '.') == Some(0) by { LastIndexOfAt(".html", '.', 0); }
    assert '_' !in ".html";
  }

  /** Any other `.html` name is its stem followed by the suffix. */
  lemma HtmlStem(name: string)
    requires EndsWith(name, ".html") && name != ".html"
    ensures name == Stem(name) + ".html"
  {
    var k := |name| - 5;
    assert name[k..] == ".html";
    assert name[k + 1..] == "html";
    LastIndexOfAt(name, '.', k);
    assert name == name[..k] + name[k..];
  }

  /** A right-split into three parts joins back with `_` between them. */
  lemma ThreeParts(s: string)
    requires |RSplit(s, '_', 2)| == 3
    ensures var p := RSplit(s, '_', 2); s == p[0] + "_" + p[1] + "_" + p[2]
  {
    var p := RSplit(s, '_', 2);
    RSplitJoin(s, '_', 2);
    assert p[..2][..1] == [p[0]];
    assert p[..2] == [p[0], p[1]];
  }

  /** A stamp that parses is the digits of the date and time it parses to. */
  lemma StampDigits(date: string, time: string)
    requires ParseStamp(date, time).Some?
    ensures DateDigits(ParseStamp(date, time).value) == date && TimeDigits(ParseStamp(date, time).value) == time
  {
    var dt := ParseStamp(date, time).value;
    DateDigitsBack(date, dt);
    TimeDigitsBack(time, dt);
  }

  lemma DateDigitsBack(date: string, dt: DateTime)
    requires |date| == 8 && AllDigits(date)
    requires dt.year == ParseDecimal(date[..4]) && dt.month == ParseDecimal(date[4..6]) && dt.day == ParseDecimal(date[6..])
    ensures DateDigits(dt) == date
  {
    ParseZeroPad(date[..4]);
    ParseZeroPad(date[4..6]);
    ParseZeroPad(date[6..]);
    assert date == date[..4] + date[4..6] + date[6..];
  }

  lemma TimeDigitsBack(time: string, dt: DateTime)
    requires |time| == 6 && AllDigits(time)
    requires dt.hour == ParseDecimal(time[..2]) && dt.minute == ParseDecimal(time[2..4]) && dt.second == ParseDecimal(time[4..])
    ensures TimeDigits(dt) == time
  {
    ParseZeroPad(time[..2]);
    ParseZeroPad(time[2..4]);
    ParseZeroPad(time[4..]);
    assert time == time[..2] + time[2..4] + time[4..];
  }

  /** `index.html` is never listed. */
  lemma IndexPageSkipped()
    ensures ScanEntry(IndexName) == None
  {
  }
  // ------------------------------------------------------------------ scanning

  /** `glob("*.html")` over the directory's file names, in the order given. */
  function HtmlFiles(names: seq<string>): (r: seq<string>)
    ensures forall n :: n in r <==> n in names && EndsWith(n, ".html")
  {
    if names == [] then []
    else HtmlFiles(names[..|names| - 1]) + (if EndsWith(names[|names| - 1], ".html") then [names[|names| - 1]] else [])
  }

  /** Largest first, by Python's `str` order. */
  predicate Descending(s: seq<string>) {
    forall i, j :: 0 <= i < j < |s| ==> StrLe(s[j], s[i])
  }

  function Insert(x: string, s: seq<string>): (r: seq<string>)
    ensures multiset(r) == multiset(s) + multiset{x}
  {
    if s == [] then [x]
    else if StrLe(s[0], x) then [x] + s
    else
      var rest := Insert(x, s[1..]);
      assert s == [s[0]] + s[1..];
      [s[0]] + rest
  }

  /** `sorted(names, reverse=True)`. */
  function SortDescending(s: seq<string>): (r: seq<string>)
    ensures multiset(r) == multiset(s)
  {
    if s == [] then []
    else
      assert s == [s[0]] + s[1..];
      Insert(s[0], SortDescending(s[1..]))
  }

  lemma {:induction false} InsertDescending(x: string, s: seq<string>)
    requires Descending(s)
    ensures Descending(Insert(x, s))
    decreases |s|
  {
    if s != [] && !StrLe(s[0], x) {
      InsertDescending(x, s[1..]);
      InsertBehind(x, s);
    } else if s != [] {
      InsertInFront(x, s);
    }
  }

  /** Inserting past a larger head keeps the list descending once the tail's insertion does. */
  lemma InsertBehind(x: string, s: seq<string>)
    requires Descending(s) && s != [] && !StrLe(s[0], x)
    requires Descending(Insert(x, s[1..]))
    ensures Descending(Insert(x, s))
  {
    var rest := Insert(x, s[1..]);
    InsertedBelowHead(x, s);
    var r := [s[0]] + rest;
    forall i, j | 0 <= i < j < |r|
      ensures StrLe(r[j], r[i])
    {
      if i > 0 {
        assert r[i] == rest[i - 1] && r[j] == rest[j - 1];
      } else {
        assert r[j] == rest[j - 1];
      }
    }
  }

  /** Inserting a name below the head into the tail gives names that all stay below the head. */
  lemma InsertedBelowHead(x: string, s: seq<string>)
    requires Descending(s) && s != [] && !StrLe(s[0], x)
    ensures forall k :: 0 <= k < |Insert(x, s[1..])| ==> StrLe(Insert(x, s[1..])[k], s[0])
  {
    var rest := Insert(x, s[1..]);
    StrLeTotal(s[0], x);
    forall k | 0 <= k < |rest|
      ensures StrLe(rest[k], s[0])
    {
      assert rest[k] in multiset(rest);
      if rest[k] != x {
        var j :| 0 <= j < |s[1..]| && s[1..][j] == rest[k];
        assert s[j + 1] == rest[k];
      }
    }
  }

  /** A name no smaller than the head goes in front and keeps the list descending. */
  lemma InsertInFront(x: string, s: seq<string>)
    requires Descending(s) && s != [] && StrLe(s[0], x)
    ensures Descending([x] + s)
  {
    var r := [x] + s;
    forall i, j | 0 <= i < j < |r|
      ensures StrLe(r[j], r[i])
    {
      if i == 0 && j > 1 {
        StrLeTransitive(s[j - 1], s[0], x);
      } else if i > 0 {
        assert r[i] == s[i - 1] && r[j] == s[j - 1];
      }
    }
  }

  /** The sort gives the same names, largest first. */
  lemma {:induction false} SortDescendingSorts(s: seq<string>)
    ensures Descending(SortDescending(s))
    ensures multiset(SortDescending(s)) == multiset(s)
    decreases |s|
  {
    if s != [] {
      SortDescendingSorts(s[1..]);
      InsertDescending(s[0], SortDescending(s[1..]));
    }
  }

  /** The entries of the files, in order, skipping the files the scan skips. */
  function Entries(files: seq<string>): (r: seq<ReportEntry>)
    ensures |r| <= |files|
  {
    if files == [] then []
    else
      var last := files[|files| - 1];
      Entries(files[..|files| - 1]) + (match ScanEntry(last) case Some(e) => [e] case None => [])
  }

  /** At most 20 reports are listed. */
  const MaxReports: nat := 20

  /** What `_scan_reports` returns for a directory holding `names`. */
  function ScanSpec(names: seq<string>): seq<ReportEntry> {
    Capped(Entries(SortDescending(HtmlFiles(names))))
  }

  /** `reports[:20]`. */
  function Capped(found: seq<ReportEntry>): (r: seq<ReportEntry>)
    ensures |r| <= MaxReports && |r| <= |found| && r == found[..|r|]
    ensures |found| <= MaxReports ==> r == found
    ensures |found| > MaxReports ==> |r| == MaxReports
  {
    found[..if |found| < MaxReports then |found| else MaxReports]
  }

  /** `_scan_reports`: the loop over the sorted files, then the first 20 entries found. */
  method ScanReports(names: seq<string>) returns (reports: seq<ReportEntry>)
    ensures reports == ScanSpec(names)
  {
    var files := SortDescending(HtmlFiles(names));
    reports := [];
    for i := 0 to |files|
      invariant reports == Entries(files[..i])
    {
      assert files[..i + 1][..i] == files[..i];
      var entry := ScanEntry(files[i]);
      if entry.Some? {
        reports := reports + [entry.value];
      }
    }
    assert files[..|files|] == files;
    if |reports| > MaxReports {
      reports := reports[..MaxReports];
    }
  }

  /** Every entry comes from a file the scan accepts, and keeps that file's name as its url. */
  lemma {:induction false} EntriesAreScanned(files: seq<string>)
    ensures forall e :: e in Entries(files) ==> e.url in files && ScanEntry(e.url) == Some(e)
    decreases |files|
  {
    if files != [] {
      var init, last := files[..|files| - 1], files[|files| - 1];
      EntriesAreScanned(init);
      assert files == init + [last];
    }
  }

  /** Every file the scan accepts gives an entry. */
  lemma {:induction false} EntriesComplete(files: seq<string>)
    ensures forall n :: n in files && ScanEntry(n).Some? ==> ScanEntry(n).value in Entries(files)
    decreases |files|
  {
    if files != [] {
      var init, last := files[..|files| - 1], files[|files| - 1];
      EntriesComplete(init);
      assert files == init + [last];
    }
  }

  /** In a descending list, the last name is below every name before it. */
  lemma LastNameSmallest(files: seq<string>, name: string)
    requires Descending(files) && files != [] && name in files[..|files| - 1]
    ensures StrLe(files[|files| - 1], name)
  {
    var k :| 0 <= k < |files| - 1 && files[..|files| - 1][k] == name;
    assert files[k] == name;
  }

  /** Files taken largest first give entries largest url first. */
  lemma {:induction false} EntriesDescending(files: seq<string>)
    requires Descending(files)
    ensures forall i, j :: 0 <= i < j < |Entries(files)| ==> StrLe(Entries(files)[j].url, Entries(files)[i].url)
    decreases |files|
  {
    if files != [] {
      var init, last := files[..|files| - 1], files[|files| - 1];
      assert files == init + [last];
      assert Descending(init);
      EntriesDescending(init);
      EntriesAreScanned(init);
      var r, prev := Entries(files), Entries(init);
      assert r[..|prev|] == prev;
      forall i, j | 0 <= i < j < |r|
        ensures StrLe(r[j].url, r[i].url)
      {
        if j >= |prev| {
          assert r[j].url == last;
          assert r[i] in prev;
          LastNameSmallest(files, r[i].url);
        } else {
          assert r[i] == prev[i] && r[j] == prev[j];
        }
      }
    }
  }

  /** The `.html` files, largest name first. */
  lemma SortedHtml(names: seq<string>)
    ensures var files := SortDescending(HtmlFiles(names));
      Descending(files) && forall n :: n in files <==> n in names && EndsWith(n, ".html")
  {
    var html := HtmlFiles(names);
    SortDescendingSorts(html);
    var files := SortDescending(html);
    forall n
      ensures n in files <==> n in html
    {
      assert n in files <==> n in multiset(files);
      assert n in html <==> n in multiset(html);
    }
  }

  /** The scan lists at most 20 reports, each from an `.html` file it accepts and named after it. */
  lemma ScanReportsLists(names: seq<string>)
    ensures var r := ScanSpec(names);
      && |r| <= MaxReports
      && (forall i :: 0 <= i < |r| ==> r[i].url in names && EndsWith(r[i].url, ".html") && ScanEntry(r[i].url) == Some(r[i]))
  {
    var files := SortDescending(HtmlFiles(names));
    var found := Entries(files);
    var r := ScanSpec(names);
    assert r == found[..|r|];
    forall i | 0 <= i < |r|
      ensures r[i].url in names && EndsWith(r[i].url, ".html") && ScanEntry(r[i].url) == Some(r[i])
    {
      assert r[i] in found;
      EntryScanned(files, r[i]);
      SortedFileListed(names, r[i].url);
    }
  }

  /** An entry of the list comes from one of the files, scanned. */
  lemma EntryScanned(files: seq<string>, e: ReportEntry)
    requires e in Entries(files)
    ensures e.url in files && ScanEntry(e.url) == Some(e)
  {
    EntriesAreScanned(files);
  }

  /** A file of the sorted list is one of the names, ending in `.html`. */
  lemma SortedFileListed(names: seq<string>, n: string)
    requires n in SortDescending(HtmlFiles(names))
    ensures n in names && EndsWith(n, ".html")
  {
    SortedHtml(names);
  }

  /** The scan lists the reports largest file name first. */
  lemma ScanReportsDescending(names: seq<string>)
    ensures var r := ScanSpec(names);
      forall i, j :: 0 <= i < j < |r| ==> StrLe(r[j].url, r[i].url)
  {
    var files := SortDescending(HtmlFiles(names));
    var found := Entries(files);
    var r := Capped(found);
    assert ScanSpec(names) == r;
    SortedHtml(names);
    EntriesDescending(files);
    assert forall i :: 0 <= i < |r| ==> r[i] == found[i];
  }

  /** When no more than 20 files are accepted, every accepted `.html` file is listed. */
  lemma ScanReportsComplete(names: seq<string>, n: string)
    requires |Entries(SortDescending(HtmlFiles(names)))| <= MaxReports
    requires n in names && EndsWith(n, ".html") && ScanEntry(n).Some?
    ensures ScanEntry(n).value in ScanSpec(names)
  {
    var files := SortDescending(HtmlFiles(names));
    var found := Entries(files);
    assert ScanSpec(names) == found;
    assert n in files by { SortedHtml(names); }
    EntryListed(files, n);
  }

  /**
   * With more than 20 accepted files the scan keeps the largest names: an accepted `.html` file
   * is either listed or there are exactly 20 entries, every one named no smaller than it.
   */
  lemma ScanReportsKeepsLargest(names: seq<string>, n: string)
    requires n in names && EndsWith(n, ".html") && ScanEntry(n).Some?
    ensures var r := ScanSpec(names);
      ScanEntry(n).value in r || (|r| == MaxReports && forall i :: 0 <= i < |r| ==> StrLe(n, r[i].url))
  {
    var files := SortDescending(HtmlFiles(names));
    SortedHtml(names);
    EntryListed(files, n);
    EntriesDescending(files);
    ScanEntryNamed(n);
    CappedKeepsLargest(Entries(files), ScanEntry(n).value);
  }

  /** A scanned entry is named after its file. */
  lemma ScanEntryNamed(name: string)
    requires ScanEntry(name).Some?
    ensures ScanEntry(name).value.url == name
  {
  }

  /** Cutting a list ordered largest url first keeps every entry or only entries no smaller than those cut. */
  lemma CappedKeepsLargest(found: seq<ReportEntry>, e: ReportEntry)
    requires e in found
    requires forall i, j :: 0 <= i < j < |found| ==> StrLe(found[j].url, found[i].url)
    ensures var r := Capped(found);
      e in r || (|r| == MaxReports && forall i :: 0 <= i < |r| ==> StrLe(e.url, r[i].url))
  {
    var r := Capped(found);
    if e !in r {
      var k :| 0 <= k < |found| && found[k] == e;
      assert |r| <= k;
      forall i | 0 <= i < |r|
        ensures StrLe(e.url, r[i].url)
      {
        assert r[i] == found[i];
      }
    }
  }

  /** An accepted file among those scanned has its entry in the list. */
  lemma EntryListed(files: seq<string>, n: string)
    requires n in files && ScanEntry(n).Some?
    ensures ScanEntry(n).value in Entries(files)
  {
    EntriesComplete(files);
  }

  // ------------------------------------------------------------------ pages

  /** The `ReportGenerator` and the directory it writes to. */
  datatype Generator = Generator(outputDir: string)

  /** `ReportGenerator(output_dir)`: the given directory, or the configured one when none (or an empty one) is given. */
  function NewGenerator(outputDir: Option<string>, settings: Settings): (g: Generator)
    ensures outputDir.Some? && outputDir.value != "" ==> g.outputDir == outputDir.value
    ensures outputDir.None? || outputDir.value == "" ==> g.outputDir == settings.outputDir
  {
    Generator(if outputDir.Some? && outputDir.value != "" then outputDir.value else settings.outputDir)
  }

  /** `_static_url`. */
  function StaticUrl(filename: string): (url: string)
    ensures StartsWith(url, "static/") && url[|"static/"|..] == filename
  {
    "static/" + filename
  }

  /** The template context of a report; `duration` is left out (it is float formatting). */
  datatype ReportContext = ReportContext(
    title: string,
    skillName: string,
    reportDate: string,
    generatedAt: string,
    backend: Json,
    summary: string,
    topics: Json,
    totalCount: Json,
    analyzedCount: Json)

  /** `data.get(key, default)`. */
  function GetOr(data: map<string, Json>, key: string, default: Json): (v: Json)
    ensures key in data ==> v == data[key]
    ensures key !in data ==> v == default
  {
    if key in data then data[key] else default
  }

  /** The file a page is written to: a directory and a name in it. */
  datatype OutputFile = OutputFile(dir: string, name: string)

  /**
   * `generate_report`: the context the template receives and the file it is written to.
   * `render` is the Markdown renderer, applied to the summary only when there is one.
   */
  function GenerateReport(g: Generator, skill: string, title: string, data: map<string, Json>, now: DateTime,
                          render: Json -> string): (r: (OutputFile, ReportContext))
    ensures r.0 == OutputFile(g.outputDir, ReportFileName(skill, now))
    ensures r.1.title == title && r.1.skillName == skill
    ensures r.1.reportDate == ReportDateText(now) && r.1.generatedAt == SecondText(now)
    ensures r.1.backend == GetOr(data, "backend", JStr("AI"))
    ensures "summary" !in data ==> r.1.summary == ""
    ensures "summary" in data ==> r.1.summary == render(data["summary"])
    ensures r.1.topics == GetOr(data, "topics", JArr([]))
    ensures r.1.totalCount == GetOr(data, "total_count", JInt(0))
    ensures r.1.analyzedCount == GetOr(data, "analyzed_count", JInt(0))
  {
    var summary := if "summary" in data then render(data["summary"]) else "";
    (OutputFile(g.outputDir, ReportFileName(skill, now)),
     ReportContext(title, skill, ReportDateText(now), SecondText(now),
       GetOr(data, "backend", JStr("AI")), summary, GetOr(data, "topics", JArr([])),
       GetOr(data, "total_count", JInt(0)), GetOr(data, "analyzed_count", JInt(0))))
  }

  /** The report a run writes is listed by a later scan under its own skill name and minute. */
  lemma GeneratedReportIsScanned(g: Generator, skill: string, title: string, data: map<string, Json>, now: DateTime,
                                 render: Json -> string)
    requires ValidDateTime(now)
    ensures var name := GenerateReport(g, skill, title, data, now, render).0.name;
      ScanEntry(name) == Some(ReportEntry(name, skill, skill + " 报告", MinuteText(now), ""))
  {
    ReportFileNameRoundTrip(skill, now);
  }

  /** One entry of the index's skill list. */
  datatype SkillCard = SkillCard(name: string, description: string, schedule: Option<string>, tags: seq<string>)

  function CardOf(cls: SkillClass): SkillCard {
    SkillCard(cls.name, cls.description, cls.schedule, cls.tags)
  }

  /** The cards of the registered names that have a class, in the order given. */
  function SkillCards(names: seq<string>, skills: map<string, SkillClass>): (r: seq<SkillCard>)
    ensures |r| <= |names|
  {
    if names == [] then []
    else
      var last := names[|names| - 1];
      SkillCards(names[..|names| - 1], skills) + (if last in skills then [CardOf(skills[last])] else [])
  }

  /** On a valid registry there is one card per registered name, in registry order, describing that name's class. */
  lemma {:induction false} SkillCardsFollowRegistry(names: seq<string>, skills: map<string, SkillClass>)
    requires forall n :: n in names ==> n in skills
    ensures |SkillCards(names, skills)| == |names|
    ensures forall i :: 0 <= i < |names| ==> SkillCards(names, skills)[i] == CardOf(skills[names[i]])
    decreases |names|
  {
    if names != [] {
      SkillCardsFollowRegistry(names[..|names| - 1], skills);
    }
  }

  /** The context of the index page. */
  datatype IndexContext = IndexContext(reports: seq<ReportEntry>, skills: seq<SkillCard>, generatedAt: string)

  /** `generate_index`: the given reports, or the scan of the directory when none are given; the skills of the registry in its order. */
  method GenerateIndex(g: Generator, reports: Option<seq<ReportEntry>>, names: seq<string>, registry: SkillRegistry, now: DateTime)
    returns (file: OutputFile, page: IndexContext)
    requires registry.Valid()
    ensures file == OutputFile(g.outputDir, IndexName)
    ensures reports.Some? ==> page.reports == reports.value
    ensures reports.None? ==> page.reports == ScanSpec(names)
    ensures page.skills == SkillCards(registry.order, registry.skills)
    ensures |page.skills| == |registry.order|
    ensures forall i :: 0 <= i < |registry.order| ==> page.skills[i] == CardOf(registry.skills[registry.order[i]])
    ensures page.generatedAt == SecondText(now)
  {
    var listed: seq<ReportEntry>;
    if reports.None? {
      listed := ScanReports(names);
    } else {
      listed := reports.value;
    }
    var skills: seq<SkillCard> := [];
    var all := registry.ListAll();
    for i := 0 to |all|
      invariant skills == SkillCards(all[..i], registry.skills)
    {
      assert all[..i + 1][..i] == all[..i];
      var cls := registry.Get(all[i]);
      if cls.Some? {
        skills := skills + [CardOf(cls.value)];
      }
    }
    assert all[..|all|] == all;
    SkillCardsFollowRegistry(all, registry.skills);
    file := OutputFile(g.outputDir, IndexName);
    page := IndexContext(listed, skills, SecondText(now));
  }
}
