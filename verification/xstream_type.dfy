/**
 * The immutable XStream column type: objects stored as XML text in a
 * character large object column. The XML serialiser and the JDBC reader and
 * statement appear here as function parameters, a sequence of read results
 * and a recorded write.
 */
module XStreamColumnType {
  import opened Wrappers

  /** The `java.sql.Types` codes the type can report. */
  const CLOB: int := 2005
  const LONGVARCHAR: int := -1

  /** The database dialect the type is built for; `ExtendedPostgres` covers its subclasses too. */
  datatype Dialect = ExtendedPostgres | OtherDialect(name: string)

  /**
   * `sqlTypes`: exactly one column type code, LONGVARCHAR on the Postgres
   * dialect (where CLOB would map to `oid`) and CLOB everywhere else.
   */
  function SqlTypes(dialect: Dialect): (codes: seq<int>)
    ensures |codes| == 1
    ensures dialect.ExtendedPostgres? ==> codes[0] == LONGVARCHAR
    ensures dialect.OtherDialect? ==> codes[0] == CLOB
  {
    var sqlType := if dialect.ExtendedPostgres? then LONGVARCHAR else CLOB;
    [sqlType]
  }

  /** `equals`: `Objects.equals`, null-safe; the values' own equality is taken to be value equality. */
  function Equals<V(==)>(x: Option<V>, y: Option<V>): (equal: bool)
    ensures equal <==> x == y
  {
    match x
    case None => y.None?
    case Some(a) => y.Some? && a == y.value
  }

  /**
   * One answer of the column's character reader to `read(charbuf)`:
   * `Chars(c)` fills the 4096-character buffer with `c` and returns `|c|`
   * (possibly 0); `EndOfStream` returns -1; `ReadFailure`
   * throws an `IOException` with the given message.
   */
  datatype ReadCall = Chars(chunk: string) | EndOfStream | ReadFailure(message: string)

  /** What `read` returns for this answer (not defined when it throws). */
  function ReadCount(c: ReadCall): int
    requires !c.ReadFailure?
  {
    if c.Chars? then |c.chunk| else -1
  }

  /** The loop goes on exactly when `read` returned a positive count. */
  predicate Continues(c: ReadCall)
  {
    !c.ReadFailure? && ReadCount(c) > 0
  }

  /** The answer to the `i`-th `read`; an exhausted reader keeps answering end of stream. */
  function Answer(calls: seq<ReadCall>, i: nat): ReadCall
  {
    if i < |calls| then calls[i] else EndOfStream
  }

  /** The number of reads before the first one that stops the loop. */
  function StopIndex(calls: seq<ReadCall>): (k: nat)
    ensures k <= |calls|
    ensures forall j :: 0 <= j < k ==> Continues(calls[j])
    ensures k < |calls| ==> !Continues(calls[k])
  {
    if calls == [] || !Continues(calls[0]) then 0 else 1 + StopIndex(calls[1..])
  }

  /** The characters one answer contributes. */
  function ChunkOf(c: ReadCall): string
  {
    if c.Chars? then c.chunk else []
  }

  /** The characters of the answers, in order, appended last to first as the read loop does. */
  function Concat(calls: seq<ReadCall>): string
  {
    if calls == [] then []
    else Concat(calls[..|calls| - 1]) + ChunkOf(calls[|calls| - 1])
  }

  /** The appended text equally starts with the first answer's characters followed by the rest's. */
  lemma {:induction false} ConcatFront(calls: seq<ReadCall>)
    requires calls != []
    ensures Concat(calls) == ChunkOf(calls[0]) + Concat(calls[1..])
  {
    var init, last := calls[..|calls| - 1], ChunkOf(calls[|calls| - 1]);
    assert Concat(calls) == Concat(init) + last;
    if init != [] {
      ConcatFront(init);
      var tail := calls[1..];
      assert tail[..|tail| - 1] == init[1..];
      assert tail[|tail| - 1] == calls[|calls| - 1];
      assert Concat(tail) == Concat(init[1..]) + last;
    } else {
      assert calls[1..] == [];
    }
  }

  /** A SQL exception carrying the message of the I/O exception that caused it. */
  datatype SqlException = SqlException(message: string)

  /**
   * The text the read loop accumulates: the in-order concatenation of the
   * chunks up to the first read that returns a count of at most 0, or the
   * SQL exception when that read throws instead.
   */
  function ReadText(calls: seq<ReadCall>): (r: Result<string, SqlException>)
    ensures r.Failure? <==>
              exists j :: 0 <= j < |calls| && calls[j].ReadFailure? && forall i :: 0 <= i < j ==> Continues(calls[i])
    ensures r.Failure? ==> r.error.message == calls[StopIndex(calls)].message
    ensures r.Success? ==> r.value == Concat(calls[..StopIndex(calls)])
  {
    var k := StopIndex(calls);
    if k < |calls| && calls[k].ReadFailure? then Failure(SqlException(calls[k].message))
    else Success(Concat(calls[..k]))
  }

  /** The read loop of `nullSafeGet`, appending each chunk to the result. */
  method ReadAll(calls: seq<ReadCall>) returns (r: Result<string, SqlException>)
    ensures r == ReadText(calls)
  {
    var result: string := [];
    var i: nat := 0;
    var answer := Answer(calls, 0);
    while Continues(answer)
      invariant i <= StopIndex(calls)
      invariant answer == Answer(calls, i)
      invariant result == Concat(calls[..i])
      decreases |calls| - i
    {
      assert calls[..i + 1][..i] == calls[..i];
      result := result + answer.chunk;
      i := i + 1;
      answer := Answer(calls, i);
    }
    if answer.ReadFailure? {
      r := Failure(SqlException(answer.message));
    } else {
      r := Success(result);
    }
  }

  /** However a text is cut into non-empty chunks, reading them up to end of stream gives the text. */
  lemma ChunkedTextReadsBack(calls: seq<ReadCall>)
    requires forall j :: 0 <= j < |calls| ==> Continues(calls[j])
    ensures ReadText(calls + [EndOfStream]) == Success(Concat(calls))
  {
    var all := calls + [EndOfStream];
    assert all[..|calls|] == calls;
  }

  /** `String.trim`'s leading part: drop characters up to U+0020 from the front. */
  function TrimStart(s: string): (r: string)
    ensures |r| <= |s| && r == s[|s| - |r|..]
    ensures forall i :: 0 <= i < |s| - |r| ==> s[i] <= ' '
    ensures r != [] ==> r[0] > ' '
  {
    if s != [] && s[0] <= ' ' then TrimStart(s[1..]) else s
  }

  /** `String.trim`'s trailing part: drop characters up to U+0020 from the back. */
  function TrimEnd(s: string): (r: string)
    ensures |r| <= |s| && r == s[..|r|]
    ensures forall i :: |r| <= i < |s| ==> s[i] <= ' '
    ensures r != [] ==> r[|r| - 1] > ' '
  {
    if s != [] && s[|s| - 1] <= ' ' then TrimEnd(s[..|s| - 1]) else s
  }

  /**
   * Java's `String.trim`: the result is empty or starts and ends with a
   * character above U+0020, and a text that already does so is returned
   * unchanged.
   */
  function Trim(s: string): (r: string)
    ensures |r| <= |s|
    ensures r == [] || (r[0] > ' ' && r[|r| - 1] > ' ')
    ensures s == [] || (s[0] > ' ' && s[|s| - 1] > ' ') ==> r == s
  {
    TrimEnd(TrimStart(s))
  }

  /**
   * `String.trim` returns a piece of the text: the characters from the
   * offset where `TrimStart` stops.
   */
  lemma {:induction false} TrimIsInfix(s: string)
    ensures |s| - |TrimStart(s)| + |Trim(s)| <= |s|
    ensures forall i :: 0 <= i < |Trim(s)| ==> Trim(s)[i] == s[|s| - |TrimStart(s)| + i]
  {
    var t := TrimStart(s);
    BlankStrippedPrefixOfSuffix(s, t, TrimEnd(t), |s| - |t|);
  }

  /**
   * `String.trim` drops only characters up to U+0020: those before the
   * offset where `TrimStart` stops and those after the piece it returns.
   */
  lemma {:induction false} TrimDropsOnlyBlanks(s: string)
    ensures forall i :: 0 <= i < |s| - |TrimStart(s)| ==> s[i] <= ' '
    ensures forall i :: |s| - |TrimStart(s)| + |Trim(s)| <= i < |s| ==> s[i] <= ' '
  {
    var t := TrimStart(s);
    BlankStrippedPrefixOfSuffix(s, t, TrimEnd(t), |s| - |t|);
  }

  /** A prefix `r` of the suffix `s[a..]`, followed there only by blanks, is the piece of `s` at `a`, followed only by blanks. */
  lemma {:induction false} BlankStrippedPrefixOfSuffix(s: string, t: string, r: string, a: nat)
    requires a <= |s| && t == s[a..]
    requires |r| <= |t| && r == t[..|r|]
    requires forall i :: |r| <= i < |t| ==> t[i] <= ' '
    ensures a + |r| <= |s|
    ensures forall i :: 0 <= i < |r| ==> r[i] == s[a + i]
    ensures forall i :: a + |r| <= i < |s| ==> s[i] <= ' '
  {
    forall i | a + |r| <= i < |s|
      ensures s[i] <= ' '
    {
      assert s[i] == t[i - a];
    }
  }

  /** A text trims to nothing exactly when every character is at most U+0020. */
  lemma TrimEmptyIffBlank(s: string)
    ensures Trim(s) == [] <==> forall i :: 0 <= i < |s| ==> s[i] <= ' '
  {
    var t := TrimStart(s);
    if t != [] {
      assert t[0] == s[|s| - |t|];
    }
  }

  /**
   * `nullSafeGet`: a null reader reads as null; otherwise the accumulated
   * text is null when it is blank (only characters up to U+0020) and is
   * deserialised otherwise; an I/O failure becomes a SQL exception.
   */
  method NullSafeGet<V>(reader: Option<seq<ReadCall>>, deserialise: string -> Option<V>)
    returns (r: Result<Option<V>, SqlException>)
    ensures reader.None? ==> r == Success(None)
    ensures reader.Some? && ReadText(reader.value).Failure? ==>
              r == Failure(ReadText(reader.value).error)
    ensures reader.Some? && ReadText(reader.value).Success? ==>
              var xml := ReadText(reader.value).value;
              r == if forall i :: 0 <= i < |xml| ==> xml[i] <= ' ' then Success(None)
                   else Success(deserialise(xml))
  {
    if reader.None? {
      return Success(None);
    }
    var text := ReadAll(reader.value);
    match text
    case Failure(e) =>
      r := Failure(e);
    case Success(xml) =>
      TrimEmptyIffBlank(xml);
      if |Trim(xml)| == 0 {
        r := Success(None);
      } else {
        r := Success(deserialise(xml));
      }
  }

  /**
   * Java's `String.length()`: the number of UTF-16 code units, one for a
   * character of the Basic Multilingual Plane and two (a surrogate pair) for
   * any other.
   */
  function Utf16Length(s: string): (n: nat)
    ensures |s| <= n <= 2 * |s|
    ensures (forall i :: 0 <= i < |s| ==> s[i] as int < 0x1_0000) ==> n == |s|
  {
    if s == [] then 0
    else (if s[0] as int < 0x1_0000 then 1 else 2) + Utf16Length(s[1..])
  }

  /** One character takes one code unit in the Basic Multilingual Plane and two outside it. */
  lemma Utf16LengthOfChar(c: char)
    ensures Utf16Length([c]) == if c as int < 0x1_0000 then 1 else 2
  {
    assert [c][1..] == [];
  }

  /** The code-unit count of a concatenation is the sum of the parts' counts. */
  lemma {:induction false} Utf16LengthAdditive(x: string, y: string)
    ensures Utf16Length(x + y) == Utf16Length(x) + Utf16Length(y)
  {
    if x != [] {
      assert (x + y)[1..] == x[1..] + y;
      Utf16LengthAdditive(x[1..], y);
    } else {
      assert x + y == y;
    }
  }

  /** A character outside the Basic Multilingual Plane makes the count exceed the character count. */
  lemma {:induction false} Utf16LengthCountsSupplementary(s: string, k: nat)
    requires k < |s| && s[k] as int >= 0x1_0000
    ensures Utf16Length(s) > |s|
  {
    assert s == s[..k] + [s[k]] + s[k + 1..];
    Utf16LengthAdditive(s[..k] + [s[k]], s[k + 1..]);
    Utf16LengthAdditive(s[..k], [s[k]]);
    Utf16LengthOfChar(s[k]);
  }

  /** The one call `nullSafeSet` makes on the prepared statement. */
  datatype StatementWrite =
    | CharacterStream(index: int, text: string, length: int)
    | SqlNull(index: int, sqlType: int)

  /**
   * `nullSafeSet`: a null value is written as SQL NULL with the type code
   * `sqlTypes` reports; any other value as its serialised text, with the
   * text's length in UTF-16 code units.
   */
  function NullSafeSet<V>(dialect: Dialect, value: Option<V>, index: int, serialise: V -> string): (w: StatementWrite)
    ensures w.index == index
    ensures value.None? <==> w.SqlNull?
    ensures w.SqlNull? ==> w.sqlType == SqlTypes(dialect)[0]
    ensures w.CharacterStream? ==> w.text == serialise(value.value) && w.length == Utf16Length(w.text)
  {
    match value
    case None => SqlNull(index, SqlTypes(dialect)[0])
    case Some(v) =>
      var s := serialise(v);
      CharacterStream(index, s, Utf16Length(s))
  }

  /** `deepCopy`: the type is immutable, so a copy is the value itself. */
  function DeepCopy<V>(value: Option<V>): (copy: Option<V>)
    ensures copy == value
  {
    value
  }

  /** `isMutable`: the type reports itself immutable. */
  function IsMutable(): (mutable: bool)
    ensures !mutable
  {
    false
  }

  /** `disassemble`: the cached form is the value itself. */
  function Disassemble<V>(value: Option<V>): (cached: Option<V>)
    ensures cached == value
  {
    DeepCopy(value)
  }

  /** `assemble`: the value rebuilt from the cache is the cached value itself; the owner is ignored. */
  function Assemble<V, O>(cached: Option<V>, owner: O): (value: Option<V>)
    ensures value == cached
  {
    DeepCopy(cached)
  }

  /** `replace`: merging returns the original; target and owner are ignored. */
  function Replace<V, O>(original: Option<V>, target: Option<V>, owner: O): (merged: Option<V>)
    ensures merged == original
  {
    original
  }

  /**
   * The cache round trip gives the value back, and a deep copy is `equals`
   * to its original.
   */
  lemma CacheRoundTrip<V, O>(value: Option<V>, owner: O)
    ensures Assemble(Disassemble(value), owner) == value
    ensures Equals(DeepCopy(value), value)
  {
  }
}
