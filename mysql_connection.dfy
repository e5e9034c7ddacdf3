/** The connection descriptor of a MySQL connection: the bit flags that tag
    a connection as synchronous or asynchronous, and `MySQLConnectionInfo`,
    which parses a `;`-delimited configuration string into host,
    port-or-socket, user, password and database. */
module MySQLConnection {
  import opened Tokenizer

  /** The tokenizer's delimiter for connection-info strings. */
  const Delimiter: char := ';'

  /** The type of the constructor's position counter. */
  newtype uint8 = x: int | 0 <= x < 0x100

  // ---------------------------------------------------------------------
  // Connection flags
  // ---------------------------------------------------------------------

  datatype ConnectionFlags = CONNECTION_ASYNC | CONNECTION_SYNCH {
    /** The enumerator's numeric value: a single bit. */
    function Bits(): (b: bv8)
      ensures b != 0 && b & (b - 1) == 0
      ensures this == CONNECTION_ASYNC <==> b == 0x1
      ensures this == CONNECTION_SYNCH <==> b == 0x2
    {
      match this
      case CONNECTION_ASYNC => 0x1
      case CONNECTION_SYNCH => 0x2
    }
  }

  /** Two different flags share no bit, so either can be tested by masking. */
  lemma FlagsDisjoint(f: ConnectionFlags, g: ConnectionFlags)
    ensures f != g <==> f.Bits() & g.Bits() == 0
    ensures f != g <==> f.Bits() != g.Bits()
  {
  }

  // ---------------------------------------------------------------------
  // Connection info: the value view
  // ---------------------------------------------------------------------

  /** The five fields of a connection descriptor as a value. */
  datatype ConnectionInfo = ConnectionInfo(
    host: string,
    port_or_socket: string,
    user: string,
    password: string,
    database: string)
  {
    /** The fields in the order the configuration string lists them. */
    function Fields(): (fs: seq<string>)
      ensures |fs| == 5
    {
      [host, port_or_socket, user, password, database]
    }

    /** Every field is non-empty and free of the delimiter. */
    predicate Formattable()
    {
      forall i :: 0 <= i < |Fields()| ==> Fields()[i] != "" && Delimiter !in Fields()[i]
    }
  }

  /** The descriptor with every field empty: "unconfigured". */
  function Unconfigured(): (info: ConnectionInfo)
    ensures forall i :: 0 <= i < |info.Fields()| ==> info.Fields()[i] == ""
  {
    ConnectionInfo("", "", "", "", "")
  }

  /** What the string constructor makes of the tokenizer's output: all or
      nothing.  Exactly five tokens are taken verbatim, by position
      (host, port-or-socket, user, password, database); any other count
      leaves every field empty. */
  function Parse(tokens: seq<string>): (info: ConnectionInfo)
    ensures |tokens| == 5 ==> info.Fields() == tokens
    ensures |tokens| != 5 ==> info == Unconfigured()
  {
    if |tokens| != 5 then Unconfigured()
    else ConnectionInfo(tokens[0], tokens[1], tokens[2], tokens[3], tokens[4])
  }

  /** The configuration string that lists the fields in order. */
  function Format(info: ConnectionInfo): string
  {
    Join(info.Fields(), Delimiter)
  }

  /** Parsing never yields a partly filled descriptor: either nothing was
      taken, or every field is its token. */
  lemma ParseAllOrNothing(tokens: seq<string>)
    ensures Parse(tokens) == Unconfigured() || Parse(tokens).Fields() == tokens
    ensures Parse(tokens).Fields() == tokens <==> |tokens| == 5
  {
  }

  /** A configuration string is taken apart exactly when it holds four
      delimiters; otherwise the descriptor stays unconfigured. */
  lemma {:induction false} AcceptedIffFourDelimiters(s: string)
    ensures |Split(s, Delimiter)| == 5 <==> Occurrences(s, Delimiter) == 4
    ensures Occurrences(s, Delimiter) != 4 ==> Parse(Split(s, Delimiter)) == Unconfigured()
    ensures Occurrences(s, Delimiter) == 4 ==> Parse(Split(s, Delimiter)).Fields() == Split(s, Delimiter)
  {
  }

  /** Round trip: formatting a descriptor with non-empty, delimiter-free
      fields and parsing it back gives the same descriptor. */
  lemma {:induction false} ParseFormat(info: ConnectionInfo)
    requires info.Formattable()
    ensures Parse(Split(Format(info), Delimiter)) == info
  {
    var fs := info.Fields();
    assert SeparatorFree(fs, Delimiter) by {
      forall i | 0 <= i < |fs| ensures Delimiter !in fs[i] {
      }
    }
    SplitJoin(fs, Delimiter);
  }

  // ---------------------------------------------------------------------
  // Connection info: the record the source fills in place
  // ---------------------------------------------------------------------

  class MySQLConnectionInfo {
    var user: string
    var password: string
    var database: string
    var host: string
    var port_or_socket: string

    /** The record's fields as a value. */
    function Info(): ConnectionInfo
      reads this
    {
      ConnectionInfo(host, port_or_socket, user, password, database)
    }

    /** The default constructor leaves every field empty. */
    constructor ()
      ensures Info() == Unconfigured()
    {
      user, password, database, host, port_or_socket := "", "", "", "", "";
    }

    /** Tokenizes `infoString` at `;` and, when there are exactly five
        tokens, copies them into the fields one after another. */
    constructor FromString(infoString: string)
      ensures Info() == Parse(Split(infoString, Delimiter))
      ensures var t := Split(infoString, Delimiter);
        if |t| == 5 then
          host == t[0] && port_or_socket == t[1] && user == t[2] && password == t[3] && database == t[4]
        else
          host == port_or_socket == user == password == database == ""
    {
      user, password, database, host, port_or_socket := "", "", "", "", "";
      var tokens := Split(infoString, Delimiter);
      new;

      if |tokens| != 5 {
        return;
      }

      var i: uint8 := 0;

      host := tokens[i];
      i := i + 1;
      port_or_socket := tokens[i];
      i := i + 1;
      user := tokens[i];
      i := i + 1;
      password := tokens[i];
      i := i + 1;
      database := tokens[i];
      i := i + 1;
      assert i == 5;
    }
  }
}
