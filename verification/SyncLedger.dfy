/** The failure ledger: a flat key-value store with keys ["file"]server that behaves
    as a map from file names to maps from server names to flags. */
module SyncLedger {
  import opened Text

  // ---- Keys ------------------------------------------------------------------------

  function HexDigit(n: nat): char
    requires n < 16
  {
    if n < 10 then '0' + n as char else 'a' + (n - 10) as char
  }

  function Hex(n: nat, width: nat): (s: string)
    ensures |s| == width
  {
    if width == 0 then "" else Hex(n / 16, width - 1) + [HexDigit(n % 16)]
  }

  function Pow16(width: nat): nat {
    if width == 0 then 1 else 16 * Pow16(width - 1)
  }

  lemma {:induction false} HexInjective(a: nat, b: nat, width: nat)
    requires a < Pow16(width) && b < Pow16(width) && Hex(a, width) == Hex(b, width)
    ensures a == b
  {
    if width > 0 {
      var s, t := Hex(a, width), Hex(b, width);
      assert s[..width - 1] == Hex(a / 16, width - 1) && t[..width - 1] == Hex(b / 16, width - 1);
      HexInjective(a / 16, b / 16, width - 1);
      assert s[width - 1] == HexDigit(a % 16) && t[width - 1] == HexDigit(b % 16);
    }
  }

  /** The letter after the backslash when `strconv.Quote` escapes a rune. */
  function Tag(c: char): char {
    match c as int
    case 0x22 => '"'
    case 0x5c => '\\'
    case 0x07 => 'a'
    case 0x08 => 'b'
    case 0x0c => 'f'
    case 0x0a => 'n'
    case 0x0d => 'r'
    case 0x09 => 't'
    case 0x0b => 'v'
    case n => if n < 0x20 || n == 0x7f then 'x' else if n < 0x1_0000 then 'u' else 'U'
  }

  function Width(tag: char): nat {
    if tag == 'x' then 2 else if tag == 'u' then 4 else if tag == 'U' then 8 else 0
  }

  /** One rune of a quoted string; `isPrint` is Go's table of printable runes. */
  function Escape(isPrint: char -> bool, c: char): string {
    if c != '"' && c != '\\' && isPrint(c) then [c]
    else ['\\', Tag(c)] + Hex(c as int, Width(Tag(c)))
  }

  function QuoteBody(isPrint: char -> bool, s: string): string {
    if s == "" then "" else Escape(isPrint, s[0]) + QuoteBody(isPrint, s[1..])
  }

  /** `fmt.Sprintf("[%q]", fileName)`. */
  function Prefix(isPrint: char -> bool, file: string): string {
    "[\"" + (QuoteBody(isPrint, file) + ("\"" + "]"))
  }

  lemma TagsAndDigits(c: char, d: char)
    requires Tag(c) == Tag(d) && Hex(c as int, Width(Tag(c))) == Hex(d as int, Width(Tag(d)))
    ensures c == d
  {
    assert Pow16(2) == 0x100;
    assert Pow16(4) == 0x1_0000;
    assert Pow16(6) == 0x100_0000;
    assert Pow16(8) == 0x1_0000_0000;
    if Width(Tag(c)) > 0 {
      HexInjective(c as int, d as int, Width(Tag(c)));
    }
  }

  lemma EscapeShape(isPrint: char -> bool, c: char)
    ensures var e := Escape(isPrint, c);
      e != "" && e[0] != '"' && (|e| == 1 <==> e[0] != '\\') && (|e| == 1 ==> e == [c])
  {
    hide Hex;
  }

  /** No escape is a prefix of another rune's escape. */
  lemma EscapePrefixFree(isPrint: char -> bool, c: char, d: char, a: string, b: string)
    requires Escape(isPrint, c) + a == Escape(isPrint, d) + b
    ensures c == d && a == b
  {
    hide Hex;
    var e, g := Escape(isPrint, c), Escape(isPrint, d);
    assert (e + a)[0] == e[0] == g[0];
    EscapeShape(isPrint, c);
    EscapeShape(isPrint, d);
    if |e| > 1 {
      assert (e + a)[1] == e[1] == g[1];
      var n := |e|;
      assert |g| == n;
      assert (e + a)[..n] == e && (g + b)[..n] == g;
      assert e[2..] == Hex(c as int, Width(Tag(c))) && g[2..] == Hex(d as int, Width(Tag(d)));
      TagsAndDigits(c, d);
    }
    assert (e + a)[|e|..] == a && (g + b)[|g|..] == b;
  }

  lemma QuoteEndsAtQuote(isPrint: char -> bool, f: string, a: string)
    ensures (QuoteBody(isPrint, f) + ("\"" + a))[0] == '"' <==> f == ""
  {
    hide Escape;
    if f != "" {
      EscapeShape(isPrint, f[0]);
    }
  }

  lemma {:induction false} QuoteBodyPrefixFree(isPrint: char -> bool, f: string, g: string, a: string, b: string)
    requires QuoteBody(isPrint, f) + ("\"" + a) == QuoteBody(isPrint, g) + ("\"" + b)
    ensures f == g && a == b
  {
    hide Escape;
    var s, t := QuoteBody(isPrint, f) + ("\"" + a), QuoteBody(isPrint, g) + ("\"" + b);
    QuoteEndsAtQuote(isPrint, f, a);
    QuoteEndsAtQuote(isPrint, g, b);
    if f == "" {
      assert s[1..] == a && t[1..] == b;
    } else {
      var s', t' := QuoteBody(isPrint, f[1..]) + ("\"" + a), QuoteBody(isPrint, g[1..]) + ("\"" + b);
      assert s == Escape(isPrint, f[0]) + s' && t == Escape(isPrint, g[0]) + t';
      EscapePrefixFree(isPrint, f[0], g[0], s', t');
      QuoteBodyPrefixFree(isPrint, f[1..], g[1..], a, b);
      assert f == [f[0]] + f[1..] && g == [g[0]] + g[1..];
    }
  }

  /** The quoted file prefix determines the file and the server, for all names. */
  lemma KeyDetermines(isPrint: char -> bool, f: string, g: string, a: string, b: string)
    requires Prefix(isPrint, f) + a == Prefix(isPrint, g) + b
    ensures f == g && a == b
  {
    hide QuoteBody;
    var s, t := QuoteBody(isPrint, f) + ("\"" + ("]" + a)), QuoteBody(isPrint, g) + ("\"" + ("]" + b));
    assert Prefix(isPrint, f) + a == "[\"" + s && Prefix(isPrint, g) + b == "[\"" + t;
    assert ("[\"" + s)[2..] == s && ("[\"" + t)[2..] == t;
    QuoteBodyPrefixFree(isPrint, f, g, "]" + a, "]" + b);
    assert ("]" + a)[1..] == a && ("]" + b)[1..] == b;
  }

  // ---- The nested view of the flat store ---------------------------------------------

  /** The keys a prefix scan visits. */
  function Scan(db: map<string, byte>, prefix: string): set<string> {
    set k | k in db && prefix <= k
  }

  function Servers(db: map<string, byte>, prefix: string): (servers: set<string>)
    ensures forall s :: s in servers <==> prefix + s in db
  {
    var servers := set k | k in db && prefix <= k :: k[|prefix|..];
    assert forall s :: s in servers <==> prefix + s in db by {
      forall s ensures s in servers <==> prefix + s in db {
        var k := prefix + s;
        assert k[|prefix|..] == s && prefix <= k;
        if s in servers {
          var k' :| k' in db && prefix <= k' && k'[|prefix|..] == s;
          assert k' == k;
        }
        if k in db {
          assert k[|prefix|..] in servers;
        }
      }
    }
    servers
  }

  /** The server flags stored under one file. */
  function View(isPrint: char -> bool, db: map<string, byte>, file: string): map<string, bool> {
    var prefix := Prefix(isPrint, file);
    map s | s in Servers(db, prefix) :: db[prefix + s] != 0
  }

  lemma ViewAt(isPrint: char -> bool, db: map<string, byte>, file: string, server: string)
    ensures server in View(isPrint, db, file) <==> Prefix(isPrint, file) + server in db
    ensures server in View(isPrint, db, file) ==>
      View(isPrint, db, file)[server] == (db[Prefix(isPrint, file) + server] != 0)
  {
    hide Prefix;
  }

  /** Two stores agree on a file when they agree on all keys of the file. */
  lemma SameView(isPrint: char -> bool, db: map<string, byte>, db': map<string, byte>, file: string)
    requires forall s :: var k := Prefix(isPrint, file) + s;
      (k in db <==> k in db') && (k in db ==> db[k] == db'[k])
    ensures View(isPrint, db, file) == View(isPrint, db', file)
  {
    var a, b := View(isPrint, db, file), View(isPrint, db', file);
    forall s ensures (s in a <==> s in b) && (s in a ==> a[s] == b[s]) {
      ViewAt(isPrint, db, file, s);
      ViewAt(isPrint, db', file, s);
      hide Prefix, View;
      var k := Prefix(isPrint, file) + s;
      assert k in db <==> k in db';
    }
  }

  /** Changing keys of one file leaves every other file as it was. */
  lemma OtherFilesKept(isPrint: char -> bool, db: map<string, byte>, db': map<string, byte>, file: string, other: string)
    requires other != file
    requires forall k | !(Prefix(isPrint, file) <= k) :: (k in db <==> k in db') && (k in db ==> db[k] == db'[k])
    ensures View(isPrint, db, other) == View(isPrint, db', other)
  {
    hide Prefix, View;
    var prefix := Prefix(isPrint, file);
    forall s ensures var k := Prefix(isPrint, other) + s; (k in db <==> k in db') && (k in db ==> db[k] == db'[k]) {
      var k := Prefix(isPrint, other) + s;
      if prefix <= k {
        assert k == prefix + k[|prefix|..];
        KeyDetermines(isPrint, file, other, k[|prefix|..], s);
      }
    }
    SameView(isPrint, db, db', other);
  }

  // ---- The database manager -----------------------------------------------------------

  class DatabaseManager {
    var db: map<string, byte>
    const isPrint: char -> bool

    constructor (isPrint: char -> bool)
      ensures db == map[] && this.isPrint == isPrint
    {
      this.isPrint := isPrint;
      db := map[];
    }

    /** The nested map this store stands for, one file at a time. */
    ghost function Flags(file: string): map<string, bool>
      reads this
    {
      View(isPrint, db, file)
    }

    /** Collects the flags of a file with a prefix scan; not found when there are none. */
    method Get(file: string) returns (r: Option<map<string, bool>>)
      ensures r == if Flags(file) == map[] then None else Some(Flags(file))
    {
      hide Prefix;
      var prefix := Prefix(isPrint, file);
      var found: map<string, bool> := map[];
      var pending := Scan(db, prefix);
      while pending != {}
        invariant pending <= Scan(db, prefix)
        invariant forall s :: s in found <==> prefix + s in Scan(db, prefix) - pending
        invariant forall s | s in found :: found[s] == (db[prefix + s] != 0)
        decreases |pending|
      {
        var k :| k in pending;
        var s := k[|prefix|..];
        assert k == prefix + s;
        AppendInjective(prefix, s);
        found := found[s := db[k] != 0];
        pending := pending - {k};
      }
      forall s ensures s in found <==> s in Flags(file) {
        ViewAt(isPrint, db, file, s);
        assert prefix <= prefix + s;
      }
      forall s | s in found ensures found[s] == Flags(file)[s] {
        ViewAt(isPrint, db, file, s);
      }
      assert found == Flags(file);
      r := if found == map[] then None else Some(found);
    }

    /** Writes the given flags, then deletes the file's keys that were not given. */
    method Set(file: string, flags: map<string, bool>)
      modifies this`db
      ensures Flags(file) == flags
      ensures forall g | g != file :: Flags(g) == old(Flags(g))
    {
      hide Prefix;
      var prefix := Prefix(isPrint, file);
      ghost var before := db;
      PutFlags(prefix, flags);
      DropKeys(prefix, set k | k in Scan(db, prefix) && k[|prefix|..] !in flags);
      forall s ensures s in Flags(file) <==> s in flags
               ensures s in flags ==> Flags(file)[s] == flags[s] {
        ViewAt(isPrint, db, file, s);
        assert prefix <= prefix + s && (prefix + s)[|prefix|..] == s;
      }
      assert Flags(file) == flags;
      forall g | g != file ensures Flags(g) == old(Flags(g)) {
        OtherFilesKept(isPrint, before, db, file, g);
      }
    }

    method PutFlags(prefix: string, flags: map<string, bool>)
      modifies this`db
      ensures SameOutside(old(db), db, prefix)
      ensures forall s | s in flags :: prefix + s in db && (db[prefix + s] != 0) == flags[s]
    {
      var todo := flags.Keys;
      while todo != {}
        invariant todo <= flags.Keys && SameOutside(old(db), db, prefix)
        invariant forall s | s in flags && s !in todo :: prefix + s in db && (db[prefix + s] != 0) == flags[s]
        decreases |todo|
      {
        var s :| s in todo;
        AppendInjective(prefix, s);
        assert prefix <= prefix + s;
        db := db[prefix + s := if flags[s] then 1 else 0];
        todo := todo - {s};
      }
    }

    /** Deletes every key of the file. */
    method Remove(file: string)
      modifies this`db
      ensures Flags(file) == map[]
      ensures forall g | g != file :: Flags(g) == old(Flags(g))
    {
      hide Prefix;
      var prefix := Prefix(isPrint, file);
      ghost var before := db;
      DropKeys(prefix, Scan(db, prefix));
      forall s ensures s !in Flags(file) {
        ViewAt(isPrint, db, file, s);
        assert prefix <= prefix + s;
      }
      assert Flags(file) == map[];
      forall g | g != file ensures Flags(g) == old(Flags(g)) {
        OtherFilesKept(isPrint, before, db, file, g);
      }
    }

    method DropKeys(ghost prefix: string, keys: set<string>)
      requires forall k | k in keys :: prefix <= k
      modifies this`db
      ensures SameOutside(old(db), db, prefix)
      ensures forall k :: k in db <==> k in old(db) && k !in keys
      ensures forall k | k in db :: db[k] == old(db)[k]
    {
      var pending := keys;
      while pending != {}
        invariant pending <= keys
        invariant forall k :: k in db <==> k in old(db) && (k !in keys || k in pending)
        invariant forall k | k in db :: db[k] == old(db)[k]
        decreases |pending|
      {
        var k :| k in pending;
        db := db - {k};
        pending := pending - {k};
      }
    }

    /** addFailure: marks the server under the file with false. */
    method AddFailure(file: string, server: string)
      modifies this`db
      ensures Flags(file) == old(Flags(file))[server := false]
      ensures forall g | g != file :: Flags(g) == old(Flags(g))
    {
      hide View;
      var found := Get(file);
      Set(file, (if found.Some? then found.value else map[])[server := false]);
    }

    /** removeFailure: takes the server out of the file's flags and reports whether
        none are left. */
    method RemoveFailure(file: string, server: string) returns (complete: bool)
      modifies this`db
      ensures Flags(file) == old(Flags(file)) - {server}
      ensures complete <==> Flags(file) == map[]
      ensures forall g | g != file :: Flags(g) == old(Flags(g))
    {
      hide View;
      var found := Get(file);
      if found.None? {
        return true;
      }
      var left := found.value - {server};
      if left != map[] {
        Set(file, left);
        complete := false;
      } else {
        Remove(file);
        complete := true;
      }
    }
  }

  ghost predicate SameOutside(db: map<string, byte>, db': map<string, byte>, prefix: string) {
    forall k | !(prefix <= k) :: (k in db <==> k in db') && (k in db ==> db[k] == db'[k])
  }

  lemma AppendInjective(prefix: string, s: string)
    ensures forall t | prefix + t == prefix + s :: t == s
  {
    forall t | prefix + t == prefix + s ensures t == s {
      assert (prefix + t)[|prefix|..] == t && (prefix + s)[|prefix|..] == s;
    }
  }
}
