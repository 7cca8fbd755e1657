/**
 * The Postgres adapter's migration file: the timestamp taken from an ISO
 * date-time, the sanitised migration name, the file name and path, and
 * the TypeScript template that embeds the generated SQL.
 *
 * The clock, the filesystem, the migrations table query and the schema
 * diffing are inputs: the ISO string, a flag and the newest migration
 * documents, and a function from the "before" snapshot to SQL statements.
 */
module CreateMigration {
  import opened Common

  /* ------------------------------------------------------ split and join */

  /** `String.prototype.split` with a one-character separator: at least one part, none holding `sep`. */
  function Split(s: string, sep: char): (parts: seq<string>)
    ensures |parts| >= 1
    ensures forall i :: 0 <= i < |parts| ==> sep !in parts[i]
    ensures |parts| == 1 <==> sep !in s
  {
    if |s| == 0 then [""]
    else
      var rest := Split(s[1..], sep);
      assert sep in s <==> s[0] == sep || sep in s[1..];
      if s[0] == sep then [""] + rest
      else [[s[0]] + rest[0]] + rest[1..]
  }

  /** `Array.prototype.join` with a one-character separator. */
  function Join(parts: seq<string>, sep: char): string {
    if |parts| == 0 then ""
    else if |parts| == 1 then parts[0]
    else parts[0] + [sep] + Join(parts[1..], sep)
  }

  /** Joining the parts of a split gives back the string. */
  lemma {:induction false} JoinSplit(s: string, sep: char)
    ensures Join(Split(s, sep), sep) == s
  {
    if |s| > 0 {
      var rest := Split(s[1..], sep);
      JoinSplit(s[1..], sep);
      var parts := Split(s, sep);
      if s[0] == sep {
        assert parts == [""] + rest && parts[1..] == rest;
        assert Join(parts, sep) == "" + [sep] + Join(rest, sep);
        assert s == [sep] + s[1..];
      } else if |rest| == 1 {
        assert parts == [[s[0]] + rest[0]];
        assert Join(rest, sep) == rest[0];
        assert s == [s[0]] + s[1..];
      } else {
        assert parts == [[s[0]] + rest[0]] + rest[1..] && parts[1..] == rest[1..];
        assert Join(parts, sep) == [s[0]] + rest[0] + [sep] + Join(rest[1..], sep);
        assert Join(rest, sep) == rest[0] + [sep] + Join(rest[1..], sep);
        assert s == [s[0]] + s[1..];
      }
    }
  }

  /** Splitting a join of separator-free parts gives back the parts. */
  lemma {:induction false} SplitJoin(parts: seq<string>, sep: char)
    requires |parts| >= 1
    requires forall i :: 0 <= i < |parts| ==> sep !in parts[i]
    ensures Split(Join(parts, sep), sep) == parts
  {
    if |parts| == 1 {
      SplitFree(parts[0], sep);
    } else {
      SplitJoin(parts[1..], sep);
      SplitPrefix(parts[0], Join(parts[1..], sep), sep);
    }
  }

  /** A string without the separator splits into itself. */
  lemma {:induction false} SplitFree(s: string, sep: char)
    requires sep !in s
    ensures Split(s, sep) == [s]
  {
    if |s| > 0 {
      assert sep !in s[1..];
      SplitFree(s[1..], sep);
      assert s == [s[0]] + s[1..];
    }
  }

  /** A separator-free head followed by the separator becomes the first part. */
  lemma {:induction false} SplitPrefix(head: string, tail: string, sep: char)
    requires sep !in head
    ensures Split(head + [sep] + tail, sep) == [head] + Split(tail, sep)
  {
    var s := head + [sep] + tail;
    if |head| == 0 {
      assert s == [sep] + tail && s[1..] == tail;
    } else {
      assert s[1..] == head[1..] + [sep] + tail;
      assert sep !in head[1..];
      SplitPrefix(head[1..], tail, sep);
      assert [head[0]] + head[1..] == head;
    }
  }

  /** A join is empty exactly when there is no part, or one empty part. */
  lemma JoinEmpty(parts: seq<string>, sep: char)
    ensures Join(parts, sep) == "" <==> |parts| == 0 || parts == [""]
  {
    if |parts| >= 2 {
      assert |Join(parts, sep)| >= 1;
    }
  }

  /* --------------------------------------------------- character classes */

  /** `\d`: an ASCII digit. */
  predicate IsDigit(c: char) {
    '0' <= c <= '9'
  }

  /** `\w`: an ASCII letter, digit or underscore. */
  predicate IsWordChar(c: char) {
    'a' <= c <= 'z' || 'A' <= c <= 'Z' || IsDigit(c) || c == '_'
  }

  predicate AllDigits(s: string) {
    forall i :: 0 <= i < |s| ==> IsDigit(s[i])
  }

  /** `s.replace(/\D/g, '')`: the digits of `s`, in order. */
  function KeepDigits(s: string): (r: string)
    ensures AllDigits(r)
    ensures |r| <= |s|
  {
    if |s| == 0 then ""
    else if IsDigit(s[0]) then [s[0]] + KeepDigits(s[1..])
    else KeepDigits(s[1..])
  }

  /** Keeping the digits of a concatenation keeps those of each part. */
  lemma {:induction false} KeepDigitsAppend(a: string, b: string)
    ensures KeepDigits(a + b) == KeepDigits(a) + KeepDigits(b)
  {
    if |a| > 0 {
      assert (a + b)[1..] == a[1..] + b;
      KeepDigitsAppend(a[1..], b);
    } else {
      assert a + b == b;
    }
  }

  /** A string of digits is its own digits. */
  lemma {:induction false} KeepDigitsOfDigits(s: string)
    requires AllDigits(s)
    ensures KeepDigits(s) == s
  {
    if |s| > 0 {
      KeepDigitsOfDigits(s[1..]);
      assert s == [s[0]] + s[1..];
    }
  }

  /** `s.replace(/\W/g, '_')`: every character that is not a word character becomes `_`. */
  function ReplaceNonWord(s: string): (r: string)
    ensures |r| == |s|
    ensures forall i :: 0 <= i < |s| ==> (if IsWordChar(s[i]) then r[i] == s[i] else r[i] == '_')
  {
    if |s| == 0 then ""
    else [if IsWordChar(s[0]) then s[0] else '_'] + ReplaceNonWord(s[1..])
  }

  /** The sanitised name holds word characters only, and sanitising it again changes nothing. */
  lemma ReplaceNonWordIdempotent(s: string)
    ensures forall i :: 0 <= i < |s| ==> IsWordChar(ReplaceNonWord(s)[i])
    ensures ReplaceNonWord(ReplaceNonWord(s)) == ReplaceNonWord(s)
  {
    var r := ReplaceNonWord(s);
    assert forall i :: 0 <= i < |s| ==> IsWordChar(r[i]);
  }

  /* ------------------------------------------------- timestamp and names */

  /**
   * `formattedDate + "_" + formattedTime`: the digits before the first `T`,
   * then the digits between that `T` and the next `.`. A string without a
   * `T` leaves the time part undefined, and reading it fails.
   */
  function Timestamp(iso: string): (r: Result<string>)
    ensures r.Err? <==> 'T' !in iso
  {
    var parts := Split(iso, 'T');
    if |parts| < 2 then Err("Cannot read properties of undefined (reading 'split')")
    else
      var formattedDate := KeepDigits(parts[0]);
      var formattedTime := KeepDigits(Split(parts[1], '.')[0]);
      Ok(formattedDate + "_" + formattedTime)
  }

  /**
   * `${timestamp}_${formattedName}.ts`: defined exactly when the timestamp
   * is; it is the timestamp, `_`, the sanitised name (as long as the name,
   * word characters only) and `.ts`.
   */
  function FileName(iso: string, migrationName: string): (r: Result<string>)
    ensures r.Err? <==> 'T' !in iso
    ensures r.Ok? ==>
      r.value == Timestamp(iso).value + "_" + ReplaceNonWord(migrationName) + ".ts"
    ensures r.Ok? ==>
      var n := |migrationName|;
      && |r.value| >= n + 4
      && r.value[|r.value| - 3..] == ".ts"
      && r.value[|r.value| - n - 4] == '_'
      && (forall i :: |r.value| - n - 3 <= i < |r.value| - 3 ==> IsWordChar(r.value[i]))
  {
    ReplaceNonWordIdempotent(migrationName);
    match Timestamp(iso)
    case Err(msg) => Err(msg)
    case Ok(timestamp) => Ok(timestamp + "_" + ReplaceNonWord(migrationName) + ".ts")
  }

  /** `${dir}/${fileName}` */
  function FilePath(dir: string, fileName: string): string {
    dir + "/" + fileName
  }

  /** The ISO rendering `YYYY-MM-DDTHH:mm:ss.sssZ` of the given digit groups. */
  function IsoString(year: string, month: string, day: string, hour: string, minute: string, second: string,
                     millis: string): string {
    year + "-" + month + "-" + day + "T" + hour + ":" + minute + ":" + second + "." + millis + "Z"
  }

  /** A non-digit between two strings drops out of their digits. */
  lemma KeepDigitsAround(a: string, sep: char, b: string)
    requires !IsDigit(sep)
    ensures KeepDigits(a + [sep] + b) == KeepDigits(a) + KeepDigits(b)
  {
    KeepDigitsAppend(a + [sep], b);
    KeepDigitsAppend(a, [sep]);
    assert [sep][1..] == [];
  }

  /** Three digit groups with a non-digit between each keep only their digits. */
  lemma KeepDigitsOfGroups(a: string, b: string, c: string, sep: char)
    requires AllDigits(a) && AllDigits(b) && AllDigits(c) && !IsDigit(sep)
    ensures KeepDigits(a + [sep] + b + [sep] + c) == a + b + c
  {
    KeepDigitsAround(a + [sep] + b, sep, c);
    KeepDigitsAround(a, sep, b);
    KeepDigitsOfDigits(a);
    KeepDigitsOfDigits(b);
    KeepDigitsOfDigits(c);
  }

  /** An ISO date-time splits at its `T` into the date and the rest, and the rest at its `.` into the clock and the rest. */
  lemma {:induction false} SplitIso(year: string, month: string, day: string, hour: string, minute: string,
                                    second: string, millis: string)
    requires AllDigits(year) && AllDigits(month) && AllDigits(day)
    requires AllDigits(hour) && AllDigits(minute) && AllDigits(second) && AllDigits(millis)
    ensures var parts := Split(IsoString(year, month, day, hour, minute, second, millis), 'T');
      && |parts| >= 2
      && parts[0] == year + ['-'] + month + ['-'] + day
      && Split(parts[1], '.')[0] == hour + [':'] + minute + [':'] + second
  {
    var date := year + "-" + month + "-" + day;
    var clock := hour + ":" + minute + ":" + second;
    var rest := clock + "." + millis + "Z";
    assert IsoString(year, month, day, hour, minute, second, millis) == date + ['T'] + rest;
    DigitsHaveNo(year, 'T'); DigitsHaveNo(month, 'T'); DigitsHaveNo(day, 'T');
    DigitsHaveNo(hour, 'T'); DigitsHaveNo(minute, 'T'); DigitsHaveNo(second, 'T'); DigitsHaveNo(millis, 'T');
    DigitsHaveNo(hour, '.'); DigitsHaveNo(minute, '.'); DigitsHaveNo(second, '.');
    assert 'T' !in date;
    assert 'T' !in rest;
    SplitPrefix(date, rest, 'T');
    SplitFree(rest, 'T');
    assert '.' !in clock;
    assert rest == clock + ['.'] + (millis + "Z");
    SplitPrefix(clock, millis + "Z", '.');
  }

  /** The timestamp is the digits of the part before the first `T`, then those of the next part up to its `.`. */
  lemma TimestampOfParts(iso: string, date: string, clock: string)
    requires |Split(iso, 'T')| >= 2 && Split(iso, 'T')[0] == date && Split(Split(iso, 'T')[1], '.')[0] == clock
    ensures Timestamp(iso) == Ok(KeepDigits(date) + "_" + KeepDigits(clock))
  {
  }

  /** For an ISO date-time the timestamp is `YYYYMMDD_HHmmss`. */
  lemma TimestampOfIso(year: string, month: string, day: string, hour: string, minute: string,
                       second: string, millis: string)
    requires AllDigits(year) && AllDigits(month) && AllDigits(day)
    requires AllDigits(hour) && AllDigits(minute) && AllDigits(second) && AllDigits(millis)
    ensures Timestamp(IsoString(year, month, day, hour, minute, second, millis))
         == Ok((year + month + day) + "_" + (hour + minute + second))
  {
    var iso := IsoString(year, month, day, hour, minute, second, millis);
    SplitIso(year, month, day, hour, minute, second, millis);
    TimestampOfParts(iso, year + ['-'] + month + ['-'] + day, hour + [':'] + minute + [':'] + second);
    KeepDigitsOfGroups(year, month, day, '-');
    KeepDigitsOfGroups(hour, minute, second, ':');
  }

  /** For an ISO date-time the file name is `YYYYMMDD_HHmmss_<sanitised name>.ts`. */
  lemma FileNameOfIso(year: string, month: string, day: string, hour: string, minute: string,
                      second: string, millis: string, migrationName: string)
    requires AllDigits(year) && AllDigits(month) && AllDigits(day)
    requires AllDigits(hour) && AllDigits(minute) && AllDigits(second) && AllDigits(millis)
    ensures FileName(IsoString(year, month, day, hour, minute, second, millis), migrationName)
         == Ok((year + month + day) + "_" + (hour + minute + second) + "_" + ReplaceNonWord(migrationName) + ".ts")
  {
    TimestampOfIso(year, month, day, hour, minute, second, millis);
  }

  lemma DigitsHaveNo(s: string, c: char)
    requires AllDigits(s) && !IsDigit(c)
    ensures c !in s
  {
  }

  /* ------------------------------------------------------------ template */

  const Header := "import { MigrateUpArgs, MigrateDownArgs } from '@payloadcms/db-postgres/types'\nimport { sql } from 'drizzle-orm'\n\nexport async function up({ payload }: MigrateUpArgs): Promise<void> {\n"
  const ExecOpen := "await payload.db.db.execute(sql`\n"
  const ExecClose := "`);\n  "
  const Placeholder := "// Migration code"
  const Footer := "\n};\n\nexport async function down({ payload }: MigrateDownArgs): Promise<void> {\n  // Migration code\n};\n"

  /** The body of `up`: the SQL in an `execute` call, or the placeholder when the SQL is absent or empty. */
  function UpBody(upSQL: Option<string>): string {
    if upSQL.Some? && upSQL.value != "" then ExecOpen + upSQL.value + ExecClose else Placeholder
  }

  /** `migrationTemplate(upSQL)` */
  function MigrationTemplate(upSQL: Option<string>): string {
    Header + UpBody(upSQL) + Footer
  }

  /** The argument `createMigration` passes: the statements joined by newlines, or nothing when there are none. */
  function SqlArgument(statements: seq<string>): (r: Option<string>)
    ensures r.None? <==> |statements| == 0
  {
    if |statements| > 0 then Some(Join(statements, '\n')) else None
  }

  /** Reads the SQL back out of a migration file produced by the template, if it has any. */
  function ExtractUpSQL(text: string): Option<string> {
    var open, close := Header + ExecOpen, ExecClose + Footer;
    if |text| >= |open| + |close| && text[..|open|] == open && text[|text| - |close|..] == close
    then Some(text[|open|..|text| - |close|])
    else None
  }

  /** The template hands back the SQL it embeds, and a template without SQL has none to hand back. */
  lemma ExtractTemplate(upSQL: Option<string>)
    ensures ExtractUpSQL(MigrationTemplate(upSQL))
         == if upSQL.Some? && upSQL.value != "" then upSQL else None
  {
    if upSQL.Some? && upSQL.value != "" {
      ExtractEmbedded(upSQL.value);
    } else {
      assert |MigrationTemplate(upSQL)| == |Header| + |Placeholder| + |Footer|;
    }
  }

  lemma ExtractEmbedded(sql: string)
    requires sql != ""
    ensures ExtractUpSQL(MigrationTemplate(Some(sql))) == Some(sql)
  {
    var text := MigrationTemplate(Some(sql));
    var open, close := Header + ExecOpen, ExecClose + Footer;
    assert text == open + sql + close;
    assert text[..|open|] == open;
    assert text[|text| - |close|..] == close;
    assert text[|open|..|text| - |close|] == sql;
  }

  /** Whatever the SQL, the file ends with the `down` function holding the placeholder. */
  lemma DownIsPlaceholder(upSQL: Option<string>)
    ensures var text := MigrationTemplate(upSQL);
      |text| >= |Footer| && text[|text| - |Footer|..] == Footer
  {
    var text := MigrationTemplate(upSQL);
    assert text == (Header + UpBody(upSQL)) + Footer;
  }

  /**
   * Whatever the statements, the migration file embeds SQL exactly when
   * their join is not empty (there is at least one, and not a single empty
   * one), and the SQL it embeds is that newline join.
   */
  lemma TemplateOfStatements(statements: seq<string>)
    ensures var up := ExtractUpSQL(MigrationTemplate(SqlArgument(statements)));
      && (up.None? <==> |statements| == 0 || statements == [""])
      && (up.Some? ==> up.value == Join(statements, '\n'))
  {
    ExtractTemplate(SqlArgument(statements));
    JoinEmpty(statements, '\n');
  }

  /** For statements without newlines, splitting the embedded SQL on newlines gives them back. */
  lemma TemplateSplitsBack(statements: seq<string>)
    requires forall i :: 0 <= i < |statements| ==> '\n' !in statements[i]
    ensures var up := ExtractUpSQL(MigrationTemplate(SqlArgument(statements)));
      up.Some? ==> Split(up.value, '\n') == statements
  {
    TemplateOfStatements(statements);
    if |statements| > 0 {
      SplitJoin(statements, '\n');
    }
  }

  /* ------------------------------------------------------------ creation */

  /** The `_meta` part of a drizzle snapshot: renamed columns, schemas and tables. */
  datatype SnapshotMeta = SnapshotMeta(columns: map<string, string>, schemas: map<string, string>, tables: map<string, string>)

  /**
   * A drizzle snapshot. Its identifiers, dialect and version are strings;
   * the definitions of enums, schemas and tables are kept by name, their
   * contents left uninterpreted.
   */
  datatype Snapshot = Snapshot(id: string, prevId: string, meta: SnapshotMeta, dialect: string, version: string,
                               enums: map<string, string>, schemas: map<string, string>, tables: map<string, string>)

  /** A row of the migrations collection: its stored schema snapshot, if any. */
  datatype MigrationDoc = MigrationDoc(schema: Option<Snapshot>)

  datatype MigrationFile = MigrationFile(path: string, contents: string)

  const ZeroUUID := "00000000-0000-0000-0000-000000000000"

  /** The snapshot of an empty database. */
  function EmptySnapshot(): Snapshot {
    Snapshot(ZeroUUID, ZeroUUID, SnapshotMeta(map[], map[], map[]), "pg", "5", map[], map[], map[])
  }

  /** The snapshot the new migration is computed against: the newest migration's schema, else the empty one. */
  function BeforeSnapshot(hasMigrationTable: bool, newest: seq<MigrationDoc>): (s: Snapshot)
    ensures s != EmptySnapshot() ==> hasMigrationTable && |newest| > 0 && newest[0].schema == Some(s)
    ensures hasMigrationTable && |newest| > 0 && newest[0].schema.Some? ==> s == newest[0].schema.value
  {
    if hasMigrationTable && |newest| > 0 && newest[0].schema.Some? then newest[0].schema.value
    else EmptySnapshot()
  }

  /**
   * `createMigration`, without its I/O: the file it writes for a migration
   * name, given the directory, the current time as an ISO string, whether
   * the migrations table exists, the newest migration documents (at most
   * one, sorted by name descending) and the SQL the schema diff yields for
   * a "before" snapshot.
   */
  method CreateMigration(dir: string, migrationName: string, iso: string, hasMigrationTable: bool,
                         newest: seq<MigrationDoc>, generateMigration: Snapshot -> seq<string>)
    returns (r: Result<MigrationFile>)
    ensures r.Err? <==> 'T' !in iso
    ensures r.Ok? ==>
      FileName(iso, migrationName).Ok? && r.value.path == FilePath(dir, FileName(iso, migrationName).value)
    ensures r.Ok? ==>
      r.value.contents == MigrationTemplate(SqlArgument(generateMigration(BeforeSnapshot(hasMigrationTable, newest))))
  {
    var parts := Split(iso, 'T');
    if |parts| < 2 {
      return Err("Cannot read properties of undefined (reading 'split')");
    }
    var formattedDate := KeepDigits(parts[0]);
    var formattedTime := KeepDigits(Split(parts[1], '.')[0]);
    var timestamp := formattedDate + "_" + formattedTime;
    var formattedName := ReplaceNonWord(migrationName);
    var fileName := timestamp + "_" + formattedName + ".ts";
    var filePath := dir + "/" + fileName;

    var drizzleJsonBefore := EmptySnapshot();
    if hasMigrationTable {
      if |newest| > 0 && newest[0].schema.Some? {
        drizzleJsonBefore := newest[0].schema.value;
      }
    }
    var sqlStatements := generateMigration(drizzleJsonBefore);
    var upSQL: Option<string> := None;
    if |sqlStatements| > 0 {
      upSQL := Some(Join(sqlStatements, '\n'));
    }
    r := Ok(MigrationFile(filePath, MigrationTemplate(upSQL)));
  }
}
