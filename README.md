# MySQL connection descriptor

This project models the connection descriptor of TrinityCore's MySQL
connection layer (`src/server/shared/Database/MySQLConnection.h`):

- `ConnectionFlags`, the two bit flags that tag a connection (and a
  prepared-statement table entry) as asynchronous (`0x1`) or synchronous
  (`0x2`);
- `MySQLConnectionInfo`, the record holding host, port-or-socket, user,
  password and database. Its default constructor leaves every field empty.
  Its string constructor cuts the configuration string at `;`. With exactly
  five tokens it copies them verbatim, by position, into host,
  port-or-socket, user, password and database. With any other count it
  returns at once and every field stays empty ("unconfigured").

The model has two modules:

- `Tokenizer` (`tokens.dfy`): `Split` and its inverse `Join`. It stands in
  for the `Tokens` splitter of `Util.h`, which is not part of this model.
- `MySQLConnection` (`mysql_connection.dfy`): the flags; the value view
  `ConnectionInfo` with the specification function `Parse` over a token
  sequence; and the class `MySQLConnectionInfo`. The class has the five
  string fields in the struct's declaration order. Its constructor
  `FromString` fills them one after another through a `uint8` position
  counter, so every index and increment is range-checked.

The position mapping follows the tokens, not the declaration order. The
first token goes to `host` although `user` is declared first.

## Model

| member | source | states |
|---|---|---|
| `Tokenizer.Split` | src/server/shared/Database/MySQLConnection.h:43 | the tokens never contain the delimiter, joining them with `;` gives the input back, and there is one token more than there are delimiters |
| `Tokenizer.SplitJoin` | src/server/shared/Database/MySQLConnection.h:43 | splitting the `;`-join of one or more delimiter-free pieces gives exactly those pieces back |
| `MySQLConnection.ConnectionFlags.Bits` | src/server/shared/Database/MySQLConnection.h:32-36 | `CONNECTION_ASYNC` is `0x1`, `CONNECTION_SYNCH` is `0x2`, and each value is a single non-zero bit |
| `MySQLConnection.FlagsDisjoint` | src/server/shared/Database/MySQLConnection.h:34-35 | two flags are different exactly when their bitwise AND is 0, and exactly when their values differ |
| `MySQLConnection.Unconfigured` | src/server/shared/Database/MySQLConnection.h:40 | the unconfigured descriptor has every one of its five fields empty |
| `MySQLConnection.Parse` | src/server/shared/Database/MySQLConnection.h:45-54 | with exactly five tokens, the fields in order host, port-or-socket, user, password, database are the tokens verbatim; with any other count, the result is the all-empty descriptor |
| `MySQLConnection.ParseAllOrNothing` | src/server/shared/Database/MySQLConnection.h:45-54 | the result is either all-empty or has every field equal to its token, never a partly filled record; the fields equal the tokens if and only if there are five |
| `MySQLConnection.AcceptedIffFourDelimiters` | src/server/shared/Database/MySQLConnection.h:43-46 | a configuration string yields five tokens if and only if it holds four `;`; any other count leaves the descriptor unconfigured |
| `MySQLConnection.ParseFormat` | src/server/shared/Database/MySQLConnection.h:43-54 | for five non-empty, `;`-free fields, joining them as host;port;user;password;database then splitting and parsing gives back the same descriptor |
| `MySQLConnection.MySQLConnectionInfo.constructor` | src/server/shared/Database/MySQLConnection.h:40 | the default-constructed record equals the unconfigured descriptor, which is also what a malformed string parses to |
| `MySQLConnection.MySQLConnectionInfo.FromString` | src/server/shared/Database/MySQLConnection.h:41-61 | the record equals `Parse` of the string's tokens: with five tokens host, port_or_socket, user, password and database are tokens 0 to 4, otherwise all are empty; the `uint8` counter stays within 0..5, so every token index is in range |

## Left out

- `Tokenizer.Split`: it keeps every segment, empty ones included. How the `Tokens` class of `Util.h` treats empty segments is not part of this model. So `AcceptedIffFourDelimiters` is a statement about this splitter, and the round trip `ParseFormat` is stated only for non-empty, `;`-free fields, where it does not depend on that choice.
- `PreparedStatementTable`: a plain record (index, query text, flags) with no behaviour.
- `MySQLConnection` class constructors, destructor, `Open`, `Close`, `Execute`, `Query`, `_Query`, `BeginTransaction`, `RollbackTransaction`, `CommitTransaction`, `ExecuteTransaction`, `PrepareStatement`, `GetPreparedStatement` and `_HandleMySQLErrno`: only declared in the header. They drive the MySQL driver over the network, and their bodies are not part of this model.
- `Ping`, `GetLastError`, `GetHandle` and `operator bool`: one-line calls into the MySQL client library or a null test on its handle.
- `LockIfReady` and `Unlock`: a try-acquire and release of a thread mutex; their point is concurrency, which is not modelled.
- `m_stmts`, `m_reconnecting`, `m_queue` and `m_worker`: statement cache, reconnect flag and asynchronous queue plumbing whose behaviour lives in the undeclared method bodies.
- The `std::string` fields are modelled as `seq<char>`; `assign` is plain assignment of the token's value.
