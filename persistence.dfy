/**
  The backing store as rows of text fields: a header row, then one row
  `account_id, name, balance` per account. Save writes a full snapshot; load
  skips the first row and inserts one account per remaining row.
 */
module Persistence {
  import opened Wrappers
  import Accounts

  type Id = Accounts.Id

  /** What the store keeps of one account besides its id. */
  datatype Record = Record(name: string, balance: int)

  /** One line of the store, already split into its fields. */
  type Row = seq<string>

  const Header: Row := ["account_id", "name", "balance"]

  /** Why reading the store failed. */
  datatype LoadError =
    | MissingHeader            // the store is empty, so there is no header to skip
    | WrongFieldCount(count: nat)  // a row does not unpack into three fields
    | BadBalance(text: string)     // the balance field is not a number

  predicate IsDigit(c: char) {
    '0' <= c <= '9'
  }

  predicate AllDigits(s: string) {
    forall i | 0 <= i < |s| :: IsDigit(s[i])
  }

  function DigitChar(d: nat): (c: char)
    requires d < 10
    ensures IsDigit(c)
  {
    ('0' as int + d) as char
  }

  function DigitValue(c: char): nat
    requires IsDigit(c)
  {
    c as int - '0' as int
  }

  /** The decimal digits of `n`, most significant first, without leading zeros. */
  function FormatNat(n: nat): (s: string)
    ensures |s| > 0 && AllDigits(s)
  {
    if n < 10 then [DigitChar(n)]
    else FormatNat(n / 10) + [DigitChar(n % 10)]
  }

  /** The value of a string of decimal digits. */
  function ParseDigits(s: string): nat
    requires AllDigits(s)
  {
    if s == [] then 0
    else 10 * ParseDigits(s[..|s| - 1]) + DigitValue(s[|s| - 1])
  }

  /** The balance column as written: an optional minus sign, then decimal digits. */
  function FormatInt(n: int): (s: string)
    ensures |s| > 0 && (s[0] == '-' <==> n < 0)
    ensures n >= 0 ==> AllDigits(s)
    ensures n < 0 ==> AllDigits(s[1..])
  {
    if n < 0 then "-" + FormatNat(-n) else FormatNat(n)
  }

  /** The balance column as read: an optional minus sign followed by at least one digit. */
  function ParseInt(s: string): (r: Option<int>)
    ensures r.Some? ==> |s| > 0 && (IsDigit(s[0]) || s[0] == '-')
    ensures r.Some? ==> forall i | 0 < i < |s| :: IsDigit(s[i])
    ensures r.Some? && r.value < 0 ==> s[0] == '-'
    ensures s == "-" ==> r.None?
  {
    if |s| > 1 && s[0] == '-' && AllDigits(s[1..]) then Some(0 - ParseDigits(s[1..]))
    else if |s| > 0 && AllDigits(s) then Some(ParseDigits(s))
    else None
  }

  lemma {:induction false} ParseFormatNat(n: nat)
    ensures ParseDigits(FormatNat(n)) == n
  {
    if n >= 10 {
      var s := FormatNat(n);
      assert s[..|s| - 1] == FormatNat(n / 10);
      ParseFormatNat(n / 10);
    }
  }

  /** Every balance written can be read back as the same number. */
  lemma ParseFormatInt(n: int)
    ensures ParseInt(FormatInt(n)) == Some(n)
  {
    if n < 0 {
      var s := FormatInt(n);
      assert s[1..] == FormatNat(-n);
      ParseFormatNat(-n);
    } else {
      ParseFormatNat(n);
    }
  }

  /** The row `[account.account_id, account.name, account.balance]`. */
  function EncodeRow(id: Id, r: Record): (row: Row)
    ensures |row| == |Header| && row[0] == id && row[1] == r.name
    ensures ParseInt(row[2]) == Some(r.balance)
  {
    ParseFormatInt(r.balance);
    [id, r.name, FormatInt(r.balance)]
  }

  /** `account_id, name, balance = row` followed by `float(balance)`. */
  function DecodeRow(row: Row): (r: Result<(Id, Record), LoadError>)
    ensures r.Ok? <==> |row| == 3 && ParseInt(row[2]).Some?
    ensures r.Ok? ==> r.value.0 == row[0] && r.value.1 == Record(row[1], ParseInt(row[2]).value)
    ensures |row| != 3 ==> r == Err(WrongFieldCount(|row|))
  {
    if |row| != 3 then Err(WrongFieldCount(|row|))
    else
      match ParseInt(row[2])
      case None => Err(BadBalance(row[2]))
      case Some(b) => Ok((row[0], Record(row[1], b)))
  }

  /** A row written for an account reads back as that account. */
  lemma DecodeEncodeRow(id: Id, r: Record)
    ensures DecodeRow(EncodeRow(id, r)) == Ok((id, r))
  {
    ParseFormatInt(r.balance);
  }

  /** `order` lists every key of `keys` exactly once. */
  predicate IsOrdering(order: seq<Id>, keys: set<Id>) {
    && (forall i, j | 0 <= i < j < |order| :: order[i] != order[j])
    && (forall i | 0 <= i < |order| :: order[i] in keys)
    && (forall k | k in keys :: k in order)
  }

  /** One row per id of `order`, in that order. */
  function Rows(snap: map<Id, Record>, order: seq<Id>): (rows: seq<Row>)
    requires forall i | 0 <= i < |order| :: order[i] in snap
    ensures |rows| == |order|
  {
    if order == [] then []
    else
      var last := order[|order| - 1];
      Rows(snap, order[..|order| - 1]) + [EncodeRow(last, snap[last])]
  }

  /** The whole store as `save_accounts` writes it when it visits the accounts in `order`. */
  function Serialise(snap: map<Id, Record>, order: seq<Id>): (rows: seq<Row>)
    requires forall i | 0 <= i < |order| :: order[i] in snap
    ensures |rows| == |order| + 1 && rows[0] == Header
  {
    [Header] + Rows(snap, order)
  }

  /**
    The loop of `load_accounts` over `rows`, starting from the map `m`: each
    row inserts (or replaces) one account, and the first malformed row stops
    the load with the rows before it already inserted.
   */
  function InsertRows(m: map<Id, Record>, rows: seq<Row>): (res: (map<Id, Record>, Outcome<LoadError>))
    ensures m.Keys <= res.0.Keys
    ensures res.1.Pass? ==> forall i | 0 <= i < |rows| :: DecodeRow(rows[i]).Ok? && DecodeRow(rows[i]).value.0 in res.0
    ensures res.1.Fail? ==> exists i | 0 <= i < |rows| :: DecodeRow(rows[i]) == Err(res.1.error)
  {
    if rows == [] then (m, Pass)
    else
      var (m', o) := InsertRows(m, rows[..|rows| - 1]);
      if o.Fail? then (m', o)
      else
        match DecodeRow(rows[|rows| - 1])
        case Err(e) => (m', Fail(e))
        case Ok((id, r)) => (m'[id := r], Pass)
  }

  /** Once a prefix of the rows has failed, the rows after it are never read. */
  lemma {:induction false} InsertRowsStopsAtError(m: map<Id, Record>, rows: seq<Row>, n: nat)
    requires n <= |rows| && InsertRows(m, rows[..n]).1.Fail?
    ensures InsertRows(m, rows) == InsertRows(m, rows[..n])
    decreases |rows|
  {
    if n < |rows| {
      var init := rows[..|rows| - 1];
      assert init[..n] == rows[..n];
      InsertRowsStopsAtError(m, init, n);
    } else {
      assert rows[..n] == rows;
    }
  }

  /**
    `load_accounts` on the map `m`: no store (the file does not exist) leaves
    `m` alone; an empty store has no header to skip; otherwise the first row
    is skipped, whatever it holds, and the rest are inserted.
   */
  function LoadStore(m: map<Id, Record>, store: Option<seq<Row>>): (res: (map<Id, Record>, Outcome<LoadError>))
    ensures m.Keys <= res.0.Keys
    ensures store.None? ==> res.0 == m && res.1.Pass?
    ensures store.Some? && res.1.Pass? ==>
      |store.value| > 0 && forall i | 1 <= i < |store.value| :: DecodeRow(store.value[i]).Ok? && DecodeRow(store.value[i]).value.0 in res.0
    ensures store.Some? && res.1.Fail? ==>
      res.1.error == MissingHeader || exists i | 1 <= i < |store.value| :: DecodeRow(store.value[i]) == Err(res.1.error)
  {
    match store
    case None => (m, Pass)
    case Some(rows) =>
      if rows == [] then (m, Fail(MissingHeader))
      else InsertRows(m, rows[1..])
  }

  /** The accounts of `snap` whose ids occur in `order`. */
  function Chosen(snap: map<Id, Record>, order: seq<Id>): (c: map<Id, Record>)
    ensures c.Keys <= snap.Keys
  {
    map k | k in snap && k in order :: snap[k]
  }

  lemma ChosenSnoc(snap: map<Id, Record>, order: seq<Id>)
    requires |order| > 0 && order[|order| - 1] in snap
    ensures var last := order[|order| - 1];
            Chosen(snap, order) == Chosen(snap, order[..|order| - 1])[last := snap[last]]
  {
    var init, last := order[..|order| - 1], order[|order| - 1];
    assert order == init + [last];
    forall k | k in order ensures k == last || k in init {
      var i :| 0 <= i < |order| && order[i] == k;
      if i < |order| - 1 { assert init[i] == k; }
    }
  }

  /** Reading the rows written for `order` adds exactly those accounts to `m`. */
  lemma {:induction false} InsertRowsOfSnapshot(m: map<Id, Record>, snap: map<Id, Record>, order: seq<Id>)
    requires forall i | 0 <= i < |order| :: order[i] in snap
    ensures InsertRows(m, Rows(snap, order)) == (m + Chosen(snap, order), Pass)
  {
    if order == [] {
      assert Chosen(snap, order) == map[];
      assert m + Chosen(snap, order) == m;
    } else {
      var init, last := order[..|order| - 1], order[|order| - 1];
      var rows := Rows(snap, order);
      assert rows == Rows(snap, init) + [EncodeRow(last, snap[last])];
      assert rows[..|rows| - 1] == Rows(snap, init);
      InsertRowsOfSnapshot(m, snap, init);
      DecodeEncodeRow(last, snap[last]);
      ChosenSnoc(snap, order);
      assert (m + Chosen(snap, init))[last := snap[last]] == m + Chosen(snap, order);
    }
  }

  /**
    The persistence round trip: a snapshot saved in any order of its ids and
    loaded into an empty ledger gives back the same accounts, without error.
   */
  lemma SaveLoadRoundTrip(snap: map<Id, Record>, order: seq<Id>)
    requires IsOrdering(order, snap.Keys)
    ensures LoadStore(map[], Some(Serialise(snap, order))) == (snap, Pass)
  {
    var rows := Serialise(snap, order);
    assert rows[1..] == Rows(snap, order);
    InsertRowsOfSnapshot(map[], snap, order);
    assert map[] + Chosen(snap, order) == snap;
  }

  /** Two accounts with balances 1000 and 500 survive a save and a reload. */
  lemma TwoAccountRoundTrip(a: Id, b: Id)
    requires a != b
    ensures var snap := map[a := Record("Alice", 1000), b := Record("Bob", 500)];
            LoadStore(map[], Some(Serialise(snap, [a, b]))) == (snap, Pass)
  {
    SaveLoadRoundTrip(map[a := Record("Alice", 1000), b := Record("Bob", 500)], [a, b]);
  }
}
