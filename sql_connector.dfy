/** The SQL-endpoint connector
    (archive/fabric-infrastructure/connectors/sql_connector.py): the
    ODBC connection string, the access-token structure handed to the driver
    under attribute 1256 (SQL_COPT_SS_ACCESS_TOKEN), and the held
    connection. Acquiring the token and opening the connection are replaced
    by parameters. */
module SqlConnector {
  import opened Wrappers
  import opened Text

  type byte = x: int | 0 <= x < 256

  // ---------------------------------------------------------------------------
  // UTF-16-LE

  /** The UTF-16 code units of a character: one below U+10000, else a surrogate pair. */
  function Units(c: char): (r: seq<int>)
    ensures 1 <= |r| <= 2 && forall i :: 0 <= i < |r| ==> 0 <= r[i] < 0x1_0000
    ensures (c as int < 0x1_0000) <==> |r| == 1
  {
    var v := c as int;
    if v < 0x1_0000 then [v]
    else [0xD800 + (v - 0x1_0000) / 0x400, 0xDC00 + (v - 0x1_0000) % 0x400]
  }

  /** A code unit, low byte first. */
  function UnitBytes(u: int): (r: seq<byte>)
    requires 0 <= u < 0x1_0000
    ensures |r| == 2 && r[0] as int + 256 * r[1] as int == u
  {
    [u % 256, u / 256]
  }

  function EncodeChar(c: char): (r: seq<byte>)
    ensures |r| == 2 * |Units(c)|
  {
    var us := Units(c);
    if |us| == 1 then UnitBytes(us[0]) else UnitBytes(us[0]) + UnitBytes(us[1])
  }

  /** `s.encode("utf-16-le")`. */
  function Encode(s: string): (r: seq<byte>)
    ensures |r| % 2 == 0 && 2 * |s| <= |r| <= 4 * |s|
  {
    if s == [] then [] else EncodeChar(s[0]) + Encode(s[1..])
  }

  function Unit(b: seq<byte>): int
    requires |b| >= 2
  {
    b[0] as int + 256 * b[1] as int
  }

  /** UTF-16-LE decoding; None for an odd length or an unpaired surrogate. */
  function Decode(b: seq<byte>): Option<string>
    decreases |b|
  {
    if b == [] then Some([])
    else if |b| < 2 then None
    else
      var u := Unit(b);
      if u < 0xD800 || 0xE000 <= u then
        match Decode(b[2..])
        case None => None
        case Some(rest) => Some([u as char] + rest)
      else if u < 0xDC00 && |b| >= 4 && 0xDC00 <= Unit(b[2..]) < 0xE000 then
        var c := 0x1_0000 + (u - 0xD800) * 0x400 + (Unit(b[2..]) - 0xDC00);
        match Decode(b[4..])
        case None => None
        case Some(rest) => Some([c as char] + rest)
      else None
  }

  lemma DecodeChar(c: char, rest: seq<byte>)
    ensures Decode(EncodeChar(c) + rest) == match Decode(rest) case None => None case Some(t) => Some([c] + t)
  {
    var b := EncodeChar(c) + rest;
    var v := c as int;
    if v < 0x1_0000 {
      assert b[2..] == rest;
      assert Unit(b) == v;
    } else {
      var q, r := (v - 0x1_0000) / 0x400, (v - 0x1_0000) % 0x400;
      assert v - 0x1_0000 == q * 0x400 + r;
      assert b[2..][2..] == rest && b[4..] == rest;
      assert Unit(b) == 0xD800 + q;
      assert Unit(b[2..]) == 0xDC00 + r;
    }
  }

  /** Decoding undoes encoding. */
  lemma {:induction false} DecodeEncode(s: string)
    ensures Decode(Encode(s)) == Some(s)
  {
    if s != [] {
      DecodeEncode(s[1..]);
      DecodeChar(s[0], Encode(s[1..]));
      assert [s[0]] + s[1..] == s;
    }
  }

  /** Characters below U+10000 take two bytes each, low byte first; an
      ASCII character c becomes the bytes c, 0. */
  lemma EncodeBasic(s: string)
    requires forall i :: 0 <= i < |s| ==> s[i] as int < 0x1_0000
    ensures |Encode(s)| == 2 * |s|
    ensures forall i :: 0 <= i < |s| ==> Encode(s)[2 * i] as int + 256 * Encode(s)[2 * i + 1] as int == s[i] as int
    ensures forall i :: 0 <= i < |s| && s[i] as int < 128 ==> Encode(s)[2 * i] == s[i] as int && Encode(s)[2 * i + 1] == 0
  {
    EncodeBasicBytes(s);
    var e := Encode(s);
    forall i | 0 <= i < |s|
      ensures e[2 * i] as int + 256 * e[2 * i + 1] as int == s[i] as int
      ensures s[i] as int < 128 ==> e[2 * i] == s[i] as int && e[2 * i + 1] == 0
    {
      ByteHalves(s[i] as int, e[2 * i], e[2 * i + 1]);
    }
  }

  lemma ByteHalves(u: int, lo: int, hi: int)
    requires 0 <= u < 0x1_0000 && lo == u % 256 && hi == u / 256
    ensures lo + 256 * hi == u
    ensures u < 128 ==> lo == u && hi == 0
  {
  }

  /** The byte-wise form: byte 2i is the low and byte 2i + 1 the high half of character i. */
  lemma {:induction false} EncodeBasicBytes(s: string)
    requires forall i :: 0 <= i < |s| ==> s[i] as int < 0x1_0000
    ensures |Encode(s)| == 2 * |s|
    ensures forall i :: 0 <= i < |s| ==> Encode(s)[2 * i] == s[i] as int % 256 && Encode(s)[2 * i + 1] == s[i] as int / 256
  {
    if s != [] {
      EncodeBasicBytes(s[1..]);
      var e, t := Encode(s), Encode(s[1..]);
      assert Units(s[0]) == [s[0] as int];
      assert EncodeChar(s[0]) == UnitBytes(s[0] as int);
      assert e == UnitBytes(s[0] as int) + t;
      ShiftedBytes(UnitBytes(s[0] as int), t);
    }
  }

  lemma ShiftedBytes(h: seq<byte>, t: seq<byte>)
    requires |h| == 2
    ensures forall j :: 2 <= j < |h + t| ==> (h + t)[j] == t[j - 2]
  {
  }

  // ---------------------------------------------------------------------------
  // _get_token_struct

  const Limit32 := 0x1_0000_0000

  /** `struct.pack("<I", n)`. */
  function LittleEndian32(n: nat): (r: seq<byte>)
    requires n < Limit32
    ensures |r| == 4
  {
    [n % 256, (n / 0x100) % 256, (n / 0x1_0000) % 256, n / 0x100_0000]
  }

  function ReadLittleEndian32(b: seq<byte>): nat
    requires |b| >= 4
  {
    b[0] as int + 0x100 * b[1] as int + 0x1_0000 * b[2] as int + 0x100_0000 * b[3] as int
  }

  lemma ReadWritten32(n: nat)
    requires n < Limit32
    ensures ReadLittleEndian32(LittleEndian32(n)) == n
  {
    var b := LittleEndian32(n);
    assert n == n % 256 + 0x100 * (n / 0x100);
    assert n / 0x100 == (n / 0x100) % 256 + 0x100 * (n / 0x1_0000);
    assert n / 0x1_0000 == (n / 0x1_0000) % 256 + 0x100 * (n / 0x100_0000);
  }

  /** The length-prefixed token; `struct.pack` raises when the encoded length
      does not fit in four bytes. */
  function TokenStruct(token: string): Result<seq<byte>, string> {
    var bytes := Encode(token);
    if |bytes| < Limit32 then Ok(LittleEndian32(|bytes|) + bytes)
    else Err("'I' format requires 0 <= number <= 4294967295")
  }

  /** Reads a token structure back: the length, then the token's bytes. */
  function ParseTokenStruct(b: seq<byte>): Option<string> {
    if |b| < 4 || ReadLittleEndian32(b) != |b| - 4 then None else Decode(b[4..])
  }

  /** The structure is four length bytes, little-endian, holding the byte
      length of the token's UTF-16-LE encoding (an even number), followed
      by exactly those bytes, so the token reads back from it. */
  lemma TokenStructMeaning(token: string)
    ensures TokenStruct(token).Ok? <==> |Encode(token)| < Limit32
    ensures TokenStruct(token).Ok? ==>
      var r := TokenStruct(token).value;
      |r| == 4 + |Encode(token)| && |Encode(token)| % 2 == 0
      && ReadLittleEndian32(r[..4]) == |Encode(token)| && r[4..] == Encode(token)
      && ParseTokenStruct(r) == Some(token)
  {
    var bytes := Encode(token);
    if |bytes| < Limit32 {
      var r := LittleEndian32(|bytes|) + bytes;
      ReadWritten32(|bytes|);
      assert r[..4] == LittleEndian32(|bytes|) && r[4..] == bytes;
      DecodeEncode(token);
    }
  }

  // ---------------------------------------------------------------------------
  // _get_connection_string

  const Driver := "{ODBC Driver 18 for SQL Server}"

  function ConnectionString(server: string, database: string): string {
    "Driver=" + Driver + ";"
    + "Server=" + server + ";"
    + "Database=" + database + ";"
    + "Encrypt=yes" + ";"
    + "TrustServerCertificate=no" + ";"
  }

  /** The key/value pairs of the connection string, in order. */
  function Settings(server: string, database: string): seq<(string, string)> {
    [("Driver", Driver), ("Server", server), ("Database", database), ("Encrypt", "yes"), ("TrustServerCertificate", "no")]
  }

  lemma Join6(a: string, b: string, c: string, e: string, f: string, g: string, d: char)
    ensures Join([a, b, c, e, f, g], d) == a + [d] + b + [d] + c + [d] + e + [d] + f + [d] + g
  {
    JoinCons(f, [g], d);
    JoinCons(e, [f, g], d);
    JoinCons(c, [e, f, g], d);
    JoinCons(b, [c, e, f, g], d);
    JoinCons(a, [b, c, e, f, g], d);
  }

  function SettingStrings(server: string, database: string): (r: seq<string>)
    ensures |r| == 6 && r[5] == ""
  {
    ["Driver=" + Driver, "Server=" + server, "Database=" + database, "Encrypt=yes", "TrustServerCertificate=no", ""]
  }

  /** Regrouping five `key=value;` pieces as a join over ';'. */
  lemma Regroup(k0: string, v0: string, k1: string, v1: string, k2: string, v2: string, p3: string, p4: string, d: char)
    ensures k0 + v0 + [d] + k1 + v1 + [d] + k2 + v2 + [d] + p3 + [d] + p4 + [d]
      == (k0 + v0) + [d] + (k1 + v1) + [d] + (k2 + v2) + [d] + p3 + [d] + p4 + [d] + ""
  {
  }

  lemma ConnectionStringJoin(server: string, database: string)
    ensures Join(SettingStrings(server, database), ';') == ConnectionString(server, database)
  {
    var ps := SettingStrings(server, database);
    Join6(ps[0], ps[1], ps[2], ps[3], ps[4], ps[5], ';');
    Regroup("Driver=", Driver, "Server=", server, "Database=", database, "Encrypt=yes", "TrustServerCertificate=no", ';');
  }

  lemma SettingStringsPairs(server: string, database: string, i: nat)
    requires i < 5
    ensures SplitFirst(SettingStrings(server, database)[i], '=') == Some(Settings(server, database)[i])
  {
    var kv := Settings(server, database)[i];
    assert SettingStrings(server, database)[i] == kv.0 + ['='] + kv.1;
    SplitFirstOf(kv.0, '=', kv.1);
  }

  lemma NoSemicolonInSettings(server: string, database: string)
    requires ';' !in server && ';' !in database
    ensures forall i :: 0 <= i < |SettingStrings(server, database)| ==> ';' !in SettingStrings(server, database)[i]
  {
    var ps := SettingStrings(server, database);
    NoSemicolonInDriver();
    NoSemicolonInFlags();
    NoSemicolonIn("Driver=", Driver);
    NoSemicolonIn("Server=", server);
    NoSemicolonIn("Database=", database);
    forall i | 0 <= i < |ps| ensures ';' !in ps[i] {
      assert ps[i] in {"Driver=" + Driver, "Server=" + server, "Database=" + database, "Encrypt=yes", "TrustServerCertificate=no", ""};
    }
  }

  lemma NoSemicolonIn(key: string, value: string)
    requires ';' !in value && (key == "Driver=" || key == "Server=" || key == "Database=")
    ensures ';' !in key + value
  {
  }

  lemma NoSemicolonInDriver()
    ensures ';' !in Driver
  {
  }

  lemma NoSemicolonInFlags()
    ensures ';' !in "Encrypt=yes" && ';' !in "TrustServerCertificate=no"
  {
  }

  /** With no ';' in the server or database names, the string is the five
      settings, each `key=value` and each terminated by ';'. */
  lemma ConnectionStringSettings(server: string, database: string)
    requires ';' !in server && ';' !in database
    ensures var parts := Split(ConnectionString(server, database), ';');
      |parts| == 6 && parts[5] == ""
      && forall i :: 0 <= i < 5 ==> SplitFirst(parts[i], '=') == Some(Settings(server, database)[i])
  {
    var ps := SettingStrings(server, database);
    ConnectionStringJoin(server, database);
    NoSemicolonInSettings(server, database);
    SplitJoin(ps, ';');
    forall i | 0 <= i < 5 ensures SplitFirst(ps[i], '=') == Some(Settings(server, database)[i]) {
      SettingStringsPairs(server, database, i);
    }
  }

  // ---------------------------------------------------------------------------
  // The connector

  const DefaultServer := "ahwfoxqla34u7cm7s4vjzj2jtq-4r6hfhd6l4eebmy66pr33dqk3q.datawarehouse.fabric.microsoft.com"
  const DefaultDatabase := "thor_industries_de_lakehouse"

  /** What the driver was opened with. */
  datatype Connection = Connection(connectionString: string, tokenStruct: seq<byte>)

  /** The outcome of opening a connection when none is held; `accepted` is
      the driver's answer. */
  function Opened(server: string, database: string, token: string, accepted: bool): Result<Connection, string> {
    match TokenStruct(token)
    case Err(e) => Err(e)
    case Ok(ts) => if accepted then Ok(Connection(ConnectionString(server, database), ts)) else Err("connection refused")
  }

  class SqlConnector {
    var server: string
    var database: string
    var useInteractive: bool
    var connection: Option<Connection>
    /** The connections closed so far, in order. */
    var closed: seq<Connection>

    /** Empty or absent names fall back to the configured endpoint and lakehouse. */
    constructor(server: Option<string>, database: Option<string>, useInteractive: bool)
      ensures this.server == (if Truthy(server) then server.value else DefaultServer)
      ensures this.database == (if Truthy(database) then database.value else DefaultDatabase)
      ensures this.useInteractive == useInteractive
      ensures connection == None && closed == []
    {
      this.server := if Truthy(server) then server.value else DefaultServer;
      this.database := if Truthy(database) then database.value else DefaultDatabase;
      this.useInteractive := useInteractive;
      connection := None;
      closed := [];
    }

    /** A held connection is returned unchanged; otherwise the token
        structure and connection string open a new one, which is held, and
        a failure leaves none held. */
    method Connect(token: string, accepted: bool) returns (r: Result<Connection, string>)
      modifies this`connection
      ensures old(connection).Some? ==> r == Ok(old(connection).value) && connection == old(connection)
      ensures old(connection).None? ==> r == Opened(server, database, token, accepted)
      ensures old(connection).None? ==> connection == if r.Ok? then Some(r.value) else None
    {
      if connection.Some? {
        return Ok(connection.value);
      }
      var ts := TokenStruct(token);
      if ts.Err? {
        return Err(ts.error);
      }
      var cs := ConnectionString(server, database);
      if !accepted {
        return Err("connection refused");
      }
      connection := Some(Connection(cs, ts.value));
      r := Ok(connection.value);
    }

    /** Closes and drops a held connection; does nothing when none is held. */
    method Disconnect()
      modifies this`connection, this`closed
      ensures connection == None
      ensures closed == old(closed) + if old(connection).Some? then [old(connection).value] else []
    {
      if connection.Some? {
        closed := closed + [connection.value];
        connection := None;
      }
    }
  }
}
