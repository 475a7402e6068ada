/** The application store of `database.py`: one SQLite table `applications`
    with an `AUTOINCREMENT` primary key, created on demand by `init_db` and
    only ever appended to by `add_application`. */
module Database {
  import opened Wrappers
  import opened Text

  // ---------------------------------------------------------------------------
  // Timestamps: `datetime.now().strftime("%Y-%m-%d %H:%M")`
  // ---------------------------------------------------------------------------

  /** A wall-clock reading at minute precision. */
  datatype DateTime = DateTime(year: int, month: int, day: int, hour: int, minute: int)

  predicate IsLeapYear(y: int) {
    (y % 4 == 0 && y % 100 != 0) || y % 400 == 0
  }

  function DaysInMonth(y: int, m: int): int
    requires 1 <= m <= 12
  {
    if m == 2 then (if IsLeapYear(y) then 29 else 28)
    else if m == 4 || m == 6 || m == 9 || m == 11 then 30
    else 31
  }

  /** The readings Python's `datetime` can represent (years 1 to 9999). */
  predicate ValidDateTime(t: DateTime) {
    && 1 <= t.year <= 9999
    && 1 <= t.month <= 12
    && 1 <= t.day <= DaysInMonth(t.year, t.month)
    && 0 <= t.hour < 24
    && 0 <= t.minute < 60
  }

  /** What the clock can return; the clock itself is a parameter of the model. */
  type Clock = t: DateTime | ValidDateTime(t) witness DateTime(1970, 1, 1, 0, 0)

  function Pow10(w: nat): nat {
    if w == 0 then 1 else 10 * Pow10(w - 1)
  }

  function DigitChar(d: int): char
    requires 0 <= d < 10
  {
    ('0' as int + d) as char
  }

  /** `n` written in decimal, zero-padded on the left to exactly `width` digits. */
  function Pad(n: nat, width: nat): (s: string)
    requires n < Pow10(width)
    ensures |s| == width
    ensures forall k :: 0 <= k < |s| ==> IsAsciiDigit(s[k])
  {
    if width == 0 then [] else Pad(n / 10, width - 1) + [DigitChar(n % 10)]
  }

  predicate AllDigits(s: string) {
    forall k :: 0 <= k < |s| ==> IsAsciiDigit(s[k])
  }

  /** The number a string of decimal digits denotes. */
  function DigitsValue(s: string): nat
    requires AllDigits(s)
  {
    if s == [] then 0 else 10 * DigitsValue(s[..|s| - 1]) + (s[|s| - 1] as int - '0' as int)
  }

  lemma {:induction false} DigitsValueBound(s: string)
    requires AllDigits(s)
    ensures DigitsValue(s) < Pow10(|s|)
  {
    if s != [] {
      DigitsValueBound(s[..|s| - 1]);
    }
  }

  /** Reading back a padded number gives the number. */
  lemma {:induction false} ValueOfPad(n: nat, width: nat)
    requires n < Pow10(width)
    ensures DigitsValue(Pad(n, width)) == n
  {
    if width > 0 {
      var p := Pad(n, width);
      assert p[..|p| - 1] == Pad(n / 10, width - 1);
      ValueOfPad(n / 10, width - 1);
    }
  }

  /** Padding the value of a digit string to its own width gives the string back. */
  lemma {:induction false} PadOfValue(s: string)
    requires AllDigits(s)
    ensures DigitsValue(s) < Pow10(|s|)
    ensures Pad(DigitsValue(s), |s|) == s
  {
    DigitsValueBound(s);
    if s != [] {
      var init := s[..|s| - 1];
      PadOfValue(init);
      var d := s[|s| - 1] as int - '0' as int;
      assert DigitsValue(s) / 10 == DigitsValue(init);
      assert DigitsValue(s) % 10 == d;
      assert s == init + [s[|s| - 1]];
    }
  }

  /** The text stored in the `datetime` column for a reading of the clock. */
  function FormatTimestamp(t: Clock): (s: string)
    ensures |s| == 16
    ensures s[4] == '-' && s[7] == '-' && s[10] == ' ' && s[13] == ':'
    ensures forall k :: 0 <= k < 16 && k != 4 && k != 7 && k != 10 && k != 13 ==> IsAsciiDigit(s[k])
  {
    Pad(t.year, 4) + "-" + Pad(t.month, 2) + "-" + Pad(t.day, 2) + " " + Pad(t.hour, 2) + ":" + Pad(t.minute, 2)
  }

  /** The shape of a stored timestamp: "YYYY-MM-DD HH:MM" with digits in every
      field position. */
  predicate IsTimestampShape(s: string) {
    && |s| == 16
    && s[4] == '-' && s[7] == '-' && s[10] == ' ' && s[13] == ':'
    && AllDigits(s[..4]) && AllDigits(s[5..7]) && AllDigits(s[8..10])
    && AllDigits(s[11..13]) && AllDigits(s[14..])
  }

  /** Reads a stored timestamp back into the clock reading it denotes. */
  function ParseTimestamp(s: string): Option<Clock> {
    if IsTimestampShape(s) then
      var t := DateTime(DigitsValue(s[..4]), DigitsValue(s[5..7]), DigitsValue(s[8..10]),
                        DigitsValue(s[11..13]), DigitsValue(s[14..]));
      if ValidDateTime(t) then Some(t) else None
    else None
  }

  /** Every formatted reading parses back to itself, so distinct readings are
      stored as distinct texts. */
  lemma ParseFormat(t: Clock)
    ensures ParseTimestamp(FormatTimestamp(t)) == Some(t)
  {
    var s := FormatTimestamp(t);
    assert s[..4] == Pad(t.year, 4);
    assert s[5..7] == Pad(t.month, 2);
    assert s[8..10] == Pad(t.day, 2);
    assert s[11..13] == Pad(t.hour, 2);
    assert s[14..] == Pad(t.minute, 2);
    ValueOfPad(t.year, 4);
    ValueOfPad(t.month, 2);
    ValueOfPad(t.day, 2);
    ValueOfPad(t.hour, 2);
    ValueOfPad(t.minute, 2);
  }

  /** Every text that parses is exactly the formatting of what it parses to. */
  lemma FormatParse(s: string, t: Clock)
    requires ParseTimestamp(s) == Some(t)
    ensures FormatTimestamp(t) == s
  {
    PadOfValue(s[..4]);
    PadOfValue(s[5..7]);
    PadOfValue(s[8..10]);
    PadOfValue(s[11..13]);
    PadOfValue(s[14..]);
    assert s == s[..4] + "-" + s[5..7] + "-" + s[8..10] + " " + s[11..13] + ":" + s[14..];
  }

  // ---------------------------------------------------------------------------
  // The `applications` table
  // ---------------------------------------------------------------------------

  /** SQLite's largest rowid, 2^63 - 1. */
  const MaxRowId: int := 0x7FFF_FFFF_FFFF_FFFF

  /** One row of `applications`. */
  datatype Application = Application(id: int, name: string, phone: string, topic: string, datetime: string)

  /** The database file: whether the table exists, its rows in insertion order,
      and the table's `sqlite_sequence` entry (the largest id ever handed out). */
  datatype Store = Store(tableExists: bool, rows: seq<Application>, sequence: int)

  /** A database file in which `init_db` has not yet run. */
  const NoDatabase := Store(false, [], 0)

  /** Why `add_application` raised instead of committing a row. */
  datatype StoreError = NoSuchTable | DatabaseFull | WriteFailed

  /** The consistency SQLite maintains for an `AUTOINCREMENT` table. */
  predicate StoreInv(s: Store) {
    && 0 <= s.sequence <= MaxRowId
    && (!s.tableExists ==> s.rows == [] && s.sequence == 0)
    && (forall k :: 0 <= k < |s.rows| ==> 1 <= s.rows[k].id <= s.sequence)
    && (forall j, k :: 0 <= j < k < |s.rows| ==> s.rows[j].id < s.rows[k].id)
  }

  /** The largest id in `rows`, or 0 when there is no positive one (SQLite's
      `max(rowid)`, with 0 standing for an empty table). */
  function MaxId(rows: seq<Application>): (m: int)
    ensures m >= 0
    ensures forall k :: 0 <= k < |rows| ==> rows[k].id <= m
    ensures rows == [] ==> m == 0
    ensures m == 0 || exists k :: 0 <= k < |rows| && rows[k].id == m
  {
    if rows == [] then 0
    else
      var init := rows[..|rows| - 1];
      var m := MaxId(init);
      var last := rows[|rows| - 1].id;
      assert forall k :: 0 <= k < |init| ==> init[k] == rows[k];
      if last > m then last else m
  }

  /** `init_db`: `CREATE TABLE IF NOT EXISTS applications (...)`. */
  function InitDb(s: Store): (r: Store)
    ensures r.tableExists
    ensures s.tableExists ==> r == s
    ensures StoreInv(s) ==> StoreInv(r) && r.rows == s.rows && r.sequence == s.sequence
  {
    if s.tableExists then s else Store(true, [], 0)
  }

  /** Running `init_db` again changes nothing. */
  lemma InitDbIdempotent(s: Store)
    ensures InitDb(InitDb(s)) == InitDb(s)
  {
  }

  /** `add_application(name, phone, topic)` at clock reading `now`; `written`
      says whether the storage layer manages the write and the commit.
      The id is SQLite's `AUTOINCREMENT` choice: one more than the larger of
      `sqlite_sequence` and the largest id in the table, refused with
      SQLITE_FULL when that is already the largest rowid. */
  function AddApplication(s: Store, name: string, phone: string, topic: string,
                          now: Clock, written: bool): (r: Result<Store, StoreError>)
    ensures r.Success? <==> s.tableExists && written && s.sequence < MaxRowId && MaxId(s.rows) < MaxRowId
    ensures !s.tableExists ==> r == Failure(NoSuchTable)
    ensures r.Success? ==>
      && r.value.tableExists
      && |r.value.rows| == |s.rows| + 1
      && r.value.rows[..|s.rows|] == s.rows
      && var a := r.value.rows[|s.rows|];
      && a.name == name && a.phone == phone && a.topic == topic
      && a.datetime == FormatTimestamp(now)
      && a.id > s.sequence
      && (forall k :: 0 <= k < |s.rows| ==> s.rows[k].id < a.id)
      && a.id <= MaxRowId
      && r.value.sequence == a.id
  {
    if !s.tableExists then Failure(NoSuchTable)
    else
      var top := if s.sequence > MaxId(s.rows) then s.sequence else MaxId(s.rows);
      if top >= MaxRowId then Failure(DatabaseFull)
      else if !written then Failure(WriteFailed)
      else
        var a := Application(top + 1, name, phone, topic, FormatTimestamp(now));
        Success(Store(true, s.rows + [a], top + 1))
  }

  /** On a consistent store the new id is exactly one past `sqlite_sequence`,
      and adding a row keeps the store consistent. */
  lemma AddApplicationKeepsInv(s: Store, name: string, phone: string, topic: string,
                               now: Clock, written: bool)
    requires StoreInv(s)
    ensures var r := AddApplication(s, name, phone, topic, now, written);
      r.Success? ==> StoreInv(r.value) && r.value.rows[|s.rows|].id == s.sequence + 1
  {
    if s.rows != [] {
      assert s.rows[|s.rows| - 1].id <= s.sequence;
    }
    assert MaxId(s.rows) <= s.sequence by {
      MaxIdBound(s.rows, s.sequence);
    }
  }

  lemma {:induction false} MaxIdBound(rows: seq<Application>, b: int)
    requires b >= 0
    requires forall k :: 0 <= k < |rows| ==> rows[k].id <= b
    ensures MaxId(rows) <= b
  {
    if rows != [] {
      MaxIdBound(rows[..|rows| - 1], b);
    }
  }

  /** Ids in a consistent store are never shared by two rows. */
  lemma IdsUnique(s: Store, j: int, k: int)
    requires StoreInv(s)
    requires 0 <= j < |s.rows| && 0 <= k < |s.rows| && j != k
    ensures s.rows[j].id != s.rows[k].id
  {
  }
}
