/** The CSV export printer, with the grammar of RFC 4180 section 2 as its specification. */
module Csv {
  import opened Prelude

  /** A task as the API shows it, with ids, times and enums already printed. */
  datatype TaskResponse = TaskResponse(
    id: string, projectId: Option<string>, title: string, description: Option<string>,
    status: string, priority: string, assigneeId: Option<string>, dueAt: Option<string>,
    createdBy: string, updatedBy: string, createdAt: string, updatedAt: string)

  function OrEmpty(field: Option<string>): string {
    match field
    case None => ""
    case Some(text) => text
  }

  function Fields(task: TaskResponse): seq<string> {
    [task.id, OrEmpty(task.projectId), task.title, OrEmpty(task.description), task.status, task.priority,
     OrEmpty(task.assigneeId), OrEmpty(task.dueAt), task.createdBy, task.updatedBy, task.createdAt, task.updatedAt]
  }

  const COLUMNS: seq<string> :=
    ["id", "project_id", "title", "description", "status", "priority",
     "assignee_id", "due_at", "created_by", "updated_by", "created_at", "updated_at"]

  const HEADER: string :=
    "id,project_id,title,description,"
    + "status,priority,assignee_id,due_at,"
    + "created_by,updated_by,created_at,updated_at\r\n"

  /** The printer */

  predicate IsSpecial(c: char) {
    c == '"' || c == ',' || c == '\n' || c == '\r'
  }

  predicate IsPlain(field: string) {
    forall c :: c in field ==> !IsSpecial(c)
  }

  function Doubled(field: string): string {
    if field == "" then "" else (if field[0] == '"' then "\"\"" else [field[0]]) + Doubled(field[1..])
  }

  function Escape(field: string): string {
    if IsPlain(field) then field else "\"" + Doubled(field) + "\""
  }

  function JoinEscaped(fields: seq<string>): string {
    if fields == [] then ""
    else if |fields| == 1 then Escape(fields[0])
    else Escape(fields[0]) + "," + JoinEscaped(fields[1..])
  }

  function RenderRow(fields: seq<string>): string {
    JoinEscaped(fields) + "\r\n"
  }

  function RenderRows(rows: seq<seq<string>>): string {
    if rows == [] then "" else RenderRow(rows[0]) + RenderRows(rows[1..])
  }

  function TaskRows(tasks: seq<TaskResponse>): (rows: seq<seq<string>>)
    ensures |rows| == |tasks| && forall i :: 0 <= i < |tasks| ==> rows[i] == Fields(tasks[i])
  {
    if tasks == [] then [] else TaskRows(tasks[..|tasks| - 1]) + [Fields(tasks[|tasks| - 1])]
  }

  /** The grammar, as a recursive-descent reader */

  datatype Parsed<+T> = Malformed | Read(value: T, rest: string)

  function ReadQuoted(s: string): Parsed<string> {
    if s == "" then Malformed
    else if s[0] != '"' then
      match ReadQuoted(s[1..])
      case Malformed => Malformed
      case Read(text, rest) => Read([s[0]] + text, rest)
    else if |s| > 1 && s[1] == '"' then
      match ReadQuoted(s[2..])
      case Malformed => Malformed
      case Read(text, rest) => Read(['"'] + text, rest)
    else Read("", s[1..])
  }

  function ReadPlain(s: string): Parsed<string> {
    if s == "" || s[0] == ',' || s[0] == '\r' || s[0] == '\n' then Read("", s)
    else if s[0] == '"' then Malformed
    else
      match ReadPlain(s[1..])
      case Malformed => Malformed
      case Read(text, rest) => Read([s[0]] + text, rest)
  }

  function ReadField(s: string): (p: Parsed<string>)
    ensures p.Read? ==> |p.rest| <= |s|
  {
    ReadsShrink(s);
    if s != "" && s[0] == '"' then ReadsShrink(s[1..]); ReadQuoted(s[1..]) else ReadPlain(s)
  }

  lemma ReadsShrink(s: string)
    ensures ReadPlain(s).Read? ==> |ReadPlain(s).rest| <= |s|
    ensures ReadQuoted(s).Read? ==> |ReadQuoted(s).rest| <= |s|
  {
  }

  function ReadRecord(s: string): (p: Parsed<seq<string>>)
    ensures p.Read? ==> |p.rest| <= |s| && (s != "" ==> |p.rest| < |s|)
    decreases |s|
  {
    match ReadField(s)
    case Malformed => Malformed
    case Read(field, rest) =>
      if rest == "" then Read([field], "")
      else if rest[0] == ',' then
        match ReadRecord(rest[1..])
        case Malformed => Malformed
        case Read(fields, rest') => Read([field] + fields, rest')
      else if "\r\n" <= rest then Read([field], rest[2..])
      else Malformed
  }

  function ReadFile(s: string): Option<seq<seq<string>>>
    decreases |s|
  {
    if s == "" then Some([]) else
      match ReadRecord(s)
      case Malformed => None
      case Read(record, rest) =>
        match ReadFile(rest)
        case None => None
        case Some(records) => Some([record] + records)
  }

  /** Printing then reading */

  lemma {:induction false} QuotedRoundTrip(field: string, tail: string)
    requires tail == "" || tail[0] != '"'
    ensures ReadQuoted(Doubled(field) + "\"" + tail) == Read(field, tail)
  {
    var s := Doubled(field) + "\"" + tail;
    if field == "" {
      assert s == "\"" + tail;
      assert s[1..] == tail;
    } else {
      QuotedRoundTrip(field[1..], tail);
      var inner := Doubled(field[1..]) + "\"" + tail;
      if field[0] == '"' {
        assert s == "\"\"" + inner;
        assert s[2..] == inner;
      } else {
        assert s == [field[0]] + inner;
        assert s[1..] == inner;
      }
      assert [field[0]] + field[1..] == field;
    }
  }

  lemma {:induction false} PlainRoundTrip(field: string, tail: string)
    requires IsPlain(field)
    requires tail == "" || tail[0] == ',' || tail[0] == '\r'
    ensures ReadPlain(field + tail) == Read(field, tail)
  {
    if field == "" {
      assert field + tail == tail;
    } else {
      assert field[0] in field;
      assert (field + tail)[1..] == field[1..] + tail;
      PlainRoundTrip(field[1..], tail);
      assert [field[0]] + field[1..] == field;
    }
  }

  lemma FieldRoundTrip(field: string, tail: string)
    requires tail == "" || tail[0] == ',' || tail[0] == '\r'
    ensures ReadField(Escape(field) + tail) == Read(field, tail)
  {
    if IsPlain(field) {
      PlainFieldReads(field, tail);
    } else {
      QuotedFieldReads(field, tail);
    }
  }

  lemma PlainFieldReads(field: string, tail: string)
    requires IsPlain(field) && (tail == "" || tail[0] == ',' || tail[0] == '\r')
    ensures ReadField(field + tail) == Read(field, tail)
  {
    var s := field + tail;
    if field != "" {
      assert s[0] == field[0] && field[0] in field;
    }
    PlainRoundTrip(field, tail);
  }

  lemma QuotedFieldReads(field: string, tail: string)
    requires tail == "" || tail[0] != '"'
    ensures ReadField("\"" + Doubled(field) + "\"" + tail) == Read(field, tail)
  {
    var inside := Doubled(field) + "\"" + tail;
    QuotedRoundTrip(field, tail);
    QuoteOpens(inside);
    assert "\"" + Doubled(field) + "\"" + tail == "\"" + inside;
  }

  lemma QuoteOpens(inside: string)
    ensures ReadField("\"" + inside) == ReadQuoted(inside)
  {
    assert ("\"" + inside)[1..] == inside;
  }

  lemma LastFieldReads(field: string, tail: string)
    ensures ReadRecord(Escape(field) + ("\r\n" + tail)) == Read([field], tail)
  {
    FieldRoundTrip(field, "\r\n" + tail);
    assert ("\r\n" + tail)[2..] == tail;
  }

  lemma EarlierFieldReads(field: string, rest: string, fields: seq<string>, tail: string)
    requires ReadRecord(rest) == Read(fields, tail)
    ensures ReadRecord(Escape(field) + ("," + rest)) == Read([field] + fields, tail)
  {
    FieldRoundTrip(field, "," + rest);
    assert ("," + rest)[1..] == rest;
  }

  lemma {:induction false} RecordRoundTrip(fields: seq<string>, tail: string)
    requires |fields| > 0
    ensures ReadRecord(RenderRow(fields) + tail) == Read(fields, tail)
  {
    if |fields| == 1 {
      assert RenderRow(fields) + tail == Escape(fields[0]) + ("\r\n" + tail);
      LastFieldReads(fields[0], tail);
      assert fields == [fields[0]];
    } else {
      var rest := RenderRow(fields[1..]) + tail;
      RecordRoundTrip(fields[1..], tail);
      assert RenderRow(fields) + tail == Escape(fields[0]) + ("," + rest);
      EarlierFieldReads(fields[0], rest, fields[1..], tail);
      assert [fields[0]] + fields[1..] == fields;
    }
  }

  /** Reading what was printed returns exactly the original fields. */
  lemma {:induction false} RoundTrip(rows: seq<seq<string>>)
    requires forall i :: 0 <= i < |rows| ==> |rows[i]| > 0
    ensures ReadFile(RenderRows(rows)) == Some(rows)
  {
    if rows == [] {
    } else {
      RecordRoundTrip(rows[0], RenderRows(rows[1..]));
      RoundTrip(rows[1..]);
      assert [rows[0]] + rows[1..] == rows;
    }
  }

  lemma JoinFour(a: string, b: string, c: string, d: string, rest: seq<string>)
    requires rest != []
    ensures Joined([a, b, c, d] + rest) == (a + "," + b + "," + c + "," + d + ",") + Joined(rest)
  {
    var all := [a, b, c, d] + rest;
    assert all[1..] == [b, c, d] + rest && all[1..][1..] == [c, d] + rest && all[1..][1..][1..] == [d] + rest
        && all[1..][1..][1..][1..] == rest;
    var j := Joined(rest);
    assert Joined(all[1..][1..][1..]) == d + "," + j;
    assert Joined(all[1..][1..]) == c + "," + (d + "," + j);
    assert Joined(all[1..]) == b + "," + (c + "," + (d + "," + j));
    assert Joined(all) == a + "," + (b + "," + (c + "," + (d + "," + j)));
  }

  lemma JoinLast(a: string, b: string, c: string, d: string)
    ensures Joined([a, b, c, d]) == a + "," + b + "," + c + "," + d
  {
    var s := [a, b, c, d];
    assert s[1..] == [b, c, d] && s[1..][1..] == [c, d] && s[1..][1..][1..] == [d];
    assert Joined(s[1..][1..]) == c + "," + d;
    assert Joined(s[1..]) == b + "," + (c + "," + d);
    assert Joined(s) == a + "," + (b + "," + (c + "," + d));
  }

  lemma JoinTwelve(a: string, b: string, c: string, d: string, e: string, f: string,
                   g: string, h: string, i: string, j: string, k: string, l: string)
    ensures Joined([a, b, c, d, e, f, g, h, i, j, k, l])
         == (a + "," + b + "," + c + "," + d + ",")
           + ((e + "," + f + "," + g + "," + h + ",") + (i + "," + j + "," + k + "," + l))
  {
    JoinFour(a, b, c, d, [e, f, g, h] + [i, j, k, l]);
    JoinFour(e, f, g, h, [i, j, k, l]);
    JoinLast(i, j, k, l);
    assert [a, b, c, d, e, f, g, h, i, j, k, l] == [a, b, c, d] + ([e, f, g, h] + [i, j, k, l]);
  }

  function FirstColumns(): string {
    "id" + "," + "project_id" + "," + "title" + "," + "description" + ","
  }

  function MiddleColumns(): string {
    "status" + "," + "priority" + "," + "assignee_id" + "," + "due_at" + ","
  }

  function LastColumns(): string {
    "created_by" + "," + "updated_by" + "," + "created_at" + "," + "updated_at"
  }

  lemma FirstText()
    ensures FirstColumns() == "id,project_id,title,description,"
  {
  }

  lemma MiddleText()
    ensures MiddleColumns() == "status,priority,assignee_id,due_at,"
  {
  }

  lemma LastText()
    ensures LastColumns() + "\r\n" == "created_by,updated_by,created_at,updated_at\r\n"
  {
  }

  lemma Regroup(a: string, b: string, c: string, d: string)
    ensures a + b + (c + d) == (a + (b + c)) + d
  {
  }

  lemma ColumnsJoined()
    ensures Joined(COLUMNS) == FirstColumns() + (MiddleColumns() + LastColumns())
  {
    JoinTwelve("id", "project_id", "title", "description", "status", "priority",
               "assignee_id", "due_at", "created_by", "updated_by", "created_at", "updated_at");
  }

  lemma HeaderText()
    ensures HEADER == FirstColumns() + MiddleColumns() + (LastColumns() + "\r\n")
  {
    FirstText();
    MiddleText();
    LastText();
  }

  lemma HeaderIsARow()
    ensures HEADER == RenderRow(COLUMNS)
  {
    ColumnsArePlain();
    JoinPlain(COLUMNS);
    ColumnsJoined();
    HeaderText();
    Regroup(FirstColumns(), MiddleColumns(), LastColumns(), "\r\n");
  }

  lemma ColumnsArePlain()
    ensures forall i :: 0 <= i < |COLUMNS| ==> IsPlain(COLUMNS[i])
  {
  }

  function Joined(fields: seq<string>): string {
    if fields == [] then "" else if |fields| == 1 then fields[0] else fields[0] + "," + Joined(fields[1..])
  }

  lemma JoinPlain(fields: seq<string>)
    requires forall i :: 0 <= i < |fields| ==> IsPlain(fields[i])
    ensures JoinEscaped(fields) == Joined(fields)
  {
  }

  lemma {:induction false} RenderRowsAppend(rows: seq<seq<string>>, row: seq<string>)
    ensures RenderRows(rows + [row]) == RenderRows(rows) + RenderRow(row)
  {
    if rows == [] {
      assert rows + [row] == [row];
      assert RenderRows([row]) == RenderRow(row) + RenderRows([row][1..]);
    } else {
      assert (rows + [row])[1..] == rows[1..] + [row];
      RenderRowsAppend(rows[1..], row);
    }
  }

  lemma HeadedRoundTrip(header: seq<string>, rows: seq<seq<string>>)
    requires |header| > 0 && forall i :: 0 <= i < |rows| ==> |rows[i]| > 0
    ensures ReadFile(RenderRow(header) + RenderRows(rows)) == Some([header] + rows)
  {
    assert ([header] + rows)[1..] == rows;
    RoundTrip([header] + rows);
  }

  /** A header line and a line for each row. */
  function Printed(header: string, rows: seq<seq<string>>): string {
    header + RenderRows(rows)
  }

  lemma ReadsBack(rows: seq<seq<string>>)
    requires forall i :: 0 <= i < |rows| ==> |rows[i]| > 0
    ensures ReadFile(Printed(HEADER, rows)) == Some([COLUMNS] + rows)
  {
    HeaderIsARow();
    HeadedRoundTrip(COLUMNS, rows);
  }

  /** Prints tasks under a header row. */
  method PrintTasks(tasks: seq<TaskResponse>) returns (out: string)
    ensures out == Printed(HEADER, TaskRows(tasks))
  {
    out := HEADER;
    NoRows();
    for i := 0 to |tasks|
      invariant out == Printed(HEADER, TaskRows(tasks[..i]))
    {
      var row := JoinEscaped(Fields(tasks[i]));
      TaskRowsGrow(tasks, i);
      PrintedGrows(HEADER, TaskRows(tasks[..i]), Fields(tasks[i]));
      out := out + row;
      out := out + "\r\n";
    }
    assert tasks[..|tasks|] == tasks;
  }

  /** `cells` are the attributes of `task` in column order, an absent one empty. */
  ghost predicate AttributesOf(task: TaskResponse, cells: seq<string>) {
    && |cells| == 12
    && cells[0] == task.id && cells[1] == (if task.projectId.Some? then task.projectId.value else "")
    && cells[2] == task.title && cells[3] == (if task.description.Some? then task.description.value else "")
    && cells[4] == task.status && cells[5] == task.priority
    && cells[6] == (if task.assigneeId.Some? then task.assigneeId.value else "")
    && cells[7] == (if task.dueAt.Some? then task.dueAt.value else "")
    && cells[8] == task.createdBy && cells[9] == task.updatedBy
    && cells[10] == task.createdAt && cells[11] == task.updatedAt
  }

  lemma FieldsByName(task: TaskResponse)
    ensures AttributesOf(task, Fields(task))
  {
  }

  lemma RowsByName(tasks: seq<TaskResponse>)
    ensures forall i :: 0 <= i < |tasks| ==> AttributesOf(tasks[i], TaskRows(tasks)[i])
  {
    hide AttributesOf;
    forall i | 0 <= i < |tasks|
      ensures AttributesOf(tasks[i], TaskRows(tasks)[i])
    {
      FieldsByName(tasks[i]);
    }
  }

  lemma AfterHeader<T>(header: T, rows: seq<T>)
    ensures |[header] + rows| == |rows| + 1 && ([header] + rows)[0] == header
    ensures forall i :: 0 <= i < |rows| ==> ([header] + rows)[i + 1] == rows[i]
  {
  }

  lemma RowsHaveFields(tasks: seq<TaskResponse>)
    ensures forall i :: 0 <= i < |tasks| ==> |TaskRows(tasks)[i]| > 0
    ensures |TaskRows(tasks)| == |tasks|
  {
  }

  /** An RFC 4180 reader gets back the header and every attribute of every task under its own name. */
  method RenderTasksCsv(tasks: seq<TaskResponse>) returns (out: string)
    ensures ReadFile(out).Some? && |ReadFile(out).value| == |tasks| + 1
    ensures ReadFile(out).value[0]
      == ["id", "project_id", "title", "description", "status", "priority",
          "assignee_id", "due_at", "created_by", "updated_by", "created_at", "updated_at"]
    ensures forall i :: 0 <= i < |tasks| ==>
      var task, cells := tasks[i], ReadFile(out).value[i + 1];
      && |cells| == 12
      && cells[0] == task.id && cells[1] == (if task.projectId.Some? then task.projectId.value else "")
      && cells[2] == task.title && cells[3] == (if task.description.Some? then task.description.value else "")
      && cells[4] == task.status && cells[5] == task.priority
      && cells[6] == (if task.assigneeId.Some? then task.assigneeId.value else "")
      && cells[7] == (if task.dueAt.Some? then task.dueAt.value else "")
      && cells[8] == task.createdBy && cells[9] == task.updatedBy
      && cells[10] == task.createdAt && cells[11] == task.updatedAt
  {
    hide ReadFile, TaskRows, Fields, Printed, RenderRows, JoinEscaped;
    out := PrintTasks(tasks);
    RowsHaveFields(tasks);
    ReadsBack(TaskRows(tasks));
    RowsByName(tasks);
    AfterHeader(COLUMNS, TaskRows(tasks));
  }

  /** A field is quoted exactly if it holds a quote, a comma or a line break, and then its quotes are doubled. */
  lemma QuotesExactly(field: string)
    ensures Escape(field) == field <==> '"' !in field && ',' !in field && '\n' !in field && '\r' !in field
    ensures Escape("a") == "a" && Escape("a,b") == "\"a,b\"" && Escape("a\"b") == "\"a\"\"b\""
  {
    if !IsPlain(field) {
      DoubledIsNoShorter(field);
    }
    assert ',' in "a,b" && '"' in "a\"b";
    assert Doubled("b") == "b" && "a,b"[1..] == ",b" && ",b"[1..] == "b" && Doubled(",b") == ",b";
    assert "a\"b"[1..] == "\"b" && "\"b"[1..] == "b" && Doubled("\"b") == "\"\"b";
  }

  lemma {:induction false} DoubledIsNoShorter(field: string)
    ensures |Doubled(field)| >= |field|
  {
    if field == "" {
    } else {
      DoubledIsNoShorter(field[1..]);
    }
  }

  lemma NoRows()
    ensures Printed(HEADER, []) == HEADER
  {
  }

  lemma TaskRowsGrow(tasks: seq<TaskResponse>, i: nat)
    requires i < |tasks|
    ensures TaskRows(tasks[..i + 1]) == TaskRows(tasks[..i]) + [Fields(tasks[i])]
  {
    assert tasks[..i + 1][..i] == tasks[..i];
  }

  lemma PrintedGrows(header: string, rows: seq<seq<string>>, row: seq<string>)
    ensures Printed(header, rows + [row]) == Printed(header, rows) + JoinEscaped(row) + "\r\n"
  {
    RenderRowsAppend(rows, row);
    Reassociate(header, RenderRows(rows), JoinEscaped(row), "\r\n");
  }

  lemma Reassociate(a: string, b: string, c: string, d: string)
    ensures a + (b + (c + d)) == a + b + c + d
  {
  }
}
