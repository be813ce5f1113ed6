/** The three output shapes the per-window callback can emit, and the parsers
    that read the two textual shapes back. */
module Render {

  import opened Wrappers
  import opened Decimal
  import opened Windows

  /** The display mode, decided by the two context flags. */
  datatype Mode = Brief | Long | Json

  /** JSON is checked first, then the long display, and brief is the default. */
  function ModeOf(jsonMode: bool, longDisplay: bool): (m: Mode)
    ensures m == Json <==> jsonMode
    ensures m == Long <==> !jsonMode && longDisplay
    ensures m == Brief <==> !jsonMode && !longDisplay
  {
    if jsonMode then Json else if longDisplay then Long else Brief
  }

  /** One thing written to standard output: a serialised JSON object, or text. */
  datatype Item = JsonText(obj: JsonObject) | Text(line: string)

  // ---- brief display: `"%d\n"` of the window id

  function BriefLine(w: WindowRecord): (s: string)
    ensures ParseBrief(s) == Some(w.windowId)
    ensures |s| >= 2 && s[|s| - 1] == '\n'
    ensures Canonical(s[..|s| - 1])
  {
    var s := IntToString(w.windowId) + "\n";
    assert s[..|s| - 1] == IntToString(w.windowId);
    IntRoundTrip(w.windowId);
    s
  }

  /** Reads a brief line back: one decimal and a final newline. */
  function ParseBrief(s: string): Option<int> {
    if |s| > 0 && s[|s| - 1] == '\n' then ParseInt(s[..|s| - 1]) else None
  }

  // ---- long display: `"%s - %s %d %d %d %d %d\n"`

  /** The text in front of the numeric columns of a long line. */
  function LongHead(w: WindowRecord): string {
    w.title + " - " + w.appName
  }

  /** The long line: the head "title - appName", then the id, x, y, width and
      height as canonical decimals, each after one space, then a newline. Read
      back, it gives those fields, whatever spaces the title and application
      name hold. */
  function LongLine(w: WindowRecord): (s: string)
    ensures s == JoinFields(LongHead(w), [w.windowId, w.x, w.y, w.width, w.height]) + "\n"
    ensures FieldsCanonical(s[..|s| - 1], 5)
    ensures ParseLongLine(s)
         == Some(LongFields(LongHead(w), w.windowId, w.x, w.y, w.width, w.height))
  {
    var nums := [w.windowId, w.x, w.y, w.width, w.height];
    var s := w.title + " - " + w.appName
      + " " + IntToString(w.windowId)
      + " " + IntToString(w.x) + " " + IntToString(w.y)
      + " " + IntToString(w.width) + " " + IntToString(w.height)
      + "\n";
    LongFormatIsJoin(w.title, w.appName, w.windowId, w.x, w.y, w.width, w.height);
    assert s[..|s| - 1] == JoinFields(LongHead(w), nums);
    ParseJoinRoundTrip(LongHead(w), nums);
    JoinFieldsCanonical(LongHead(w), nums);
    s
  }

  /** An empty application name leaves both of its surrounding spaces in place:
      the head is the title and " - ", and the first column adds its own space. */
  lemma EmptyAppNameKeepsSpaces(w: WindowRecord)
    requires w.appName == ""
    ensures LongLine(w) == JoinFields(w.title + " - ", [w.windowId, w.x, w.y, w.width, w.height]) + "\n"
  {
    assert LongHead(w) == w.title + " - ";
  }

  /** `head` followed by each of `nums` in decimal, each preceded by one space. */
  function JoinFields(head: string, nums: seq<int>): string
    decreases |nums|
  {
    if |nums| == 0 then head
    else JoinFields(head, nums[..|nums| - 1]) + " " + IntToString(nums[|nums| - 1])
  }

  /** The position of the last space in `s` before index `j`, if any. */
  function LastSpaceBefore(s: string, j: nat): (r: Option<nat>)
    requires j <= |s|
    ensures r.Some? ==> r.value < j && s[r.value] == ' '
    ensures r.Some? ==> forall k :: r.value < k < j ==> s[k] != ' '
    ensures r.None? ==> forall k :: 0 <= k < j ==> s[k] != ' '
    decreases j
  {
    if j == 0 then None
    else if s[j - 1] == ' ' then Some(j - 1)
    else LastSpaceBefore(s, j - 1)
  }

  /** The position of the last space in `s`, if any. */
  function LastSpace(s: string): (r: Option<nat>)
    ensures r.Some? ==> r.value < |s| && s[r.value] == ' '
    ensures r.Some? ==> forall k :: r.value < k < |s| ==> s[k] != ' '
  {
    LastSpaceBefore(s, |s|)
  }

  /** Splits `s` at its last space into the text before and the field after. */
  function SplitLast(s: string): Option<(string, string)> {
    match LastSpace(s)
    case None => None
    case Some(i) => Some((s[..i], s[i + 1..]))
  }

  /** A split puts the two parts back together around the space. */
  lemma SplitLastJoins(s: string)
    requires SplitLast(s).Some?
    ensures s == SplitLast(s).value.0 + " " + SplitLast(s).value.1
  {
    var i := LastSpace(s).value;
    assert s == s[..i] + [s[i]] + s[i + 1..];
  }

  /** Reads `k` space-separated decimals off the end of `s`, returning the text
      in front of them and the numbers in order. */
  function ParseFields(s: string, k: nat): (r: Option<(string, seq<int>)>)
    ensures r.Some? ==> |r.value.1| == k
    decreases k
  {
    if k == 0 then Some((s, []))
    else
      var split := SplitLast(s);
      if split.None? then None
      else
        var n := ParseInt(split.value.1);
        if n.None? then None
        else
          var rest := ParseFields(split.value.0, k - 1);
          if rest.None? then None
          else Some((rest.value.0, rest.value.1 + [n.value]))
  }

  /** The last `k` space-separated fields of `s` are each in the canonical form
      `%d` prints. */
  predicate FieldsCanonical(s: string, k: nat)
    decreases k
  {
    k == 0 ||
    match SplitLast(s)
    case None => false
    case Some((front, field)) => Canonical(field) && FieldsCanonical(front, k - 1)
  }

  /** Every column a join appends is canonical. */
  lemma {:induction false} JoinFieldsCanonical(head: string, nums: seq<int>)
    ensures FieldsCanonical(JoinFields(head, nums), |nums|)
    decreases |nums|
  {
    if |nums| > 0 {
      var init := nums[..|nums| - 1];
      SplitLastOfJoin(JoinFields(head, init), IntToString(nums[|nums| - 1]));
      JoinFieldsCanonical(head, init);
    }
  }

  /** The converse of the round trip: text whose last `k` fields are canonical
      and parse to `ns` is exactly the join of its head with `ns`. */
  lemma {:induction false} ParseFieldsConverse(s: string, k: nat, head: string, ns: seq<int>)
    requires FieldsCanonical(s, k)
    requires ParseFields(s, k) == Some((head, ns))
    ensures s == JoinFields(head, ns)
    decreases k
  {
    if k > 0 {
      var split := SplitLast(s);
      assert split.Some?;
      var front, field := split.value.0, split.value.1;
      assert Canonical(field) && FieldsCanonical(front, k - 1);
      var n, rest := ParseInt(field), ParseFields(front, k - 1);
      assert n.Some? && rest.Some?;
      assert head == rest.value.0 && ns == rest.value.1 + [n.value];
      CanonicalIsPrinted(field, n.value);
      ParseFieldsConverse(front, k - 1, head, rest.value.1);
      assert ns[..|ns| - 1] == rest.value.1;
      SplitLastJoins(s);
    }
  }

  /** Reading a long line back exposes its body: the text before the newline
      holds the head and the five numbers. */
  lemma ParseLongLineBody(s: string, f: LongFields)
    requires ParseLongLine(s) == Some(f)
    ensures |s| > 0 && s == s[..|s| - 1] + "\n"
    ensures ParseFields(s[..|s| - 1], 5) == Some((f.head, [f.windowId, f.x, f.y, f.width, f.height]))
  {
    assert |s| > 0 && s[|s| - 1] == '\n';
    var body := s[..|s| - 1];
    assert s == body + "\n";
    var r := ParseFields(body, 5);
    assert r.Some?;
    var ns := r.value.1;
    assert |ns| == 5;
    assert f == LongFields(r.value.0, ns[0], ns[1], ns[2], ns[3], ns[4]);
    assert ns == [f.windowId, f.x, f.y, f.width, f.height];
  }

  /** A long line whose columns are canonical and which reads back as a window's
      fields is exactly that window's long line: the join `LongLine` ensures. */
  lemma LongLineConverse(s: string, w: WindowRecord)
    requires |s| > 0 && FieldsCanonical(s[..|s| - 1], 5)
    requires ParseLongLine(s) == Some(LongFields(LongHead(w), w.windowId, w.x, w.y, w.width, w.height))
    ensures s == JoinFields(LongHead(w), [w.windowId, w.x, w.y, w.width, w.height]) + "\n"
  {
    var nums := [w.windowId, w.x, w.y, w.width, w.height];
    ParseLongLineBody(s, LongFields(LongHead(w), w.windowId, w.x, w.y, w.width, w.height));
    ParseFieldsConverse(s[..|s| - 1], 5, LongHead(w), nums);
  }

  /** The fields a long line carries. */
  datatype LongFields = LongFields(head: string, windowId: int, x: int, y: int, width: int, height: int)

  /** Reads a long line back, from the right: the newline, then five decimals;
      whatever precedes them (spaces included) is the head. */
  function ParseLongLine(s: string): Option<LongFields> {
    if |s| == 0 || s[|s| - 1] != '\n' then None
    else
      var fields := ParseFields(s[..|s| - 1], 5);
      if fields.None? then None
      else
        var (head, ns) := fields.value;
        Some(LongFields(head, ns[0], ns[1], ns[2], ns[3], ns[4]))
  }

  /** Splitting `front + " " + field` at its last space recovers both parts when
      the field has no space in it. */
  lemma SplitLastOfJoin(front: string, field: string)
    requires forall i :: 0 <= i < |field| ==> field[i] != ' '
    ensures SplitLast(front + " " + field) == Some((front, field))
  {
    var s := front + " " + field;
    assert s[|front|] == ' ';
    var i := LastSpace(s).value;
    assert forall k :: |front| < k < |s| ==> s[k] == field[k - |front| - 1];
    assert i == |front|;
    assert s[..i] == front;
    assert s[i + 1..] == field;
  }

  /** One step of reading fields off the right. */
  lemma ParseFieldsStep(s: string, k: nat, front: string, field: string, n: int,
                        head: string, ns: seq<int>)
    requires k > 0
    requires SplitLast(s) == Some((front, field))
    requires ParseInt(field) == Some(n)
    requires ParseFields(front, k - 1) == Some((head, ns))
    ensures ParseFields(s, k) == Some((head, ns + [n]))
  {
  }

  /** Appending one more decimal field to text whose fields parse appends its
      value to the parsed numbers. */
  lemma ParseAppendedField(front: string, head: string, ns: seq<int>, n: int)
    requires ParseFields(front, |ns|) == Some((head, ns))
    ensures ParseFields(front + " " + IntToString(n), |ns| + 1) == Some((head, ns + [n]))
  {
    SplitLastOfJoin(front, IntToString(n));
    IntRoundTrip(n);
    ParseFieldsStep(front + " " + IntToString(n), |ns| + 1, front, IntToString(n), n, head, ns);
  }

  /** Parsing the numbers a join appended gives back the head and the numbers. */
  lemma {:induction false} ParseJoinRoundTrip(head: string, nums: seq<int>)
    ensures ParseFields(JoinFields(head, nums), |nums|) == Some((head, nums))
    decreases |nums|
  {
    if |nums| > 0 {
      var init, last := nums[..|nums| - 1], nums[|nums| - 1];
      var front := JoinFields(head, init);
      assert JoinFields(head, nums) == front + " " + IntToString(last);
      assert init + [last] == nums;
      ParseJoinRoundTrip(head, init);
      ParseAppendedField(front, head, init, last);
    }
  }

  /** The `"%s - %s %d %d %d %d %d\n"` layout is the head "title - app" joined
      with the five numeric columns, then a newline. */
  lemma LongFormatIsJoin(title: string, app: string, id: int, x: int, y: int, width: int, height: int)
    ensures title + " - " + app
            + " " + IntToString(id)
            + " " + IntToString(x) + " " + IntToString(y)
            + " " + IntToString(width) + " " + IntToString(height)
            + "\n"
         == JoinFields(title + " - " + app, [id, x, y, width, height]) + "\n"
  {
    var h := title + " - " + app;
    var n1 := [id];
    var n2 := n1 + [x];
    var n3 := n2 + [y];
    var n4 := n3 + [width];
    var n5 := n4 + [height];
    assert n1[..0] == [] && n2[..1] == n1 && n3[..2] == n2 && n4[..3] == n3 && n5[..4] == n4;
    assert JoinFields(h, n1) == h + " " + IntToString(id);
    assert JoinFields(h, n2) == JoinFields(h, n1) + " " + IntToString(x);
    assert JoinFields(h, n3) == JoinFields(h, n2) + " " + IntToString(y);
    assert JoinFields(h, n4) == JoinFields(h, n3) + " " + IntToString(width);
    assert JoinFields(h, n5) == JoinFields(h, n4) + " " + IntToString(height);
    assert n5 == [id, x, y, width, height];
  }

  /** The item the callback emits for a window in the given mode. */
  function RenderWindow(m: Mode, w: WindowRecord): (r: Item)
    ensures r.JsonText? <==> m == Json
    ensures r.JsonText? ==> WindowOf(r.obj) == w
    ensures m == Brief ==> ParseBrief(r.line) == Some(w.windowId)
    ensures m == Long ==>
              ParseLongLine(r.line) == Some(LongFields(LongHead(w), w.windowId, w.x, w.y, w.width, w.height))
  {
    match m
    case Json => JsonText(JsonOf(w))
    case Long => Text(LongLine(w))
    case Brief => Text(BriefLine(w))
  }

}
