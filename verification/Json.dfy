/**
 * JSON as an already parsed tree, and what both configuration parsers share.
 */
module Json {
  import opened Util

  datatype Json =
    | Null
    | Bool(b: bool)
    | Int(n: int)
    | Fraction(text: string)
    | Str(s: string)
    | Arr(items: seq<Json>)
    | Obj(fields: map<string, Json>)

  type Fields = map<string, Json>

  datatype Error = WrongShape | InvalidConfig(message: string)

  datatype Result<+T> = Ok(value: T) | Err(error: Error) {
    predicate IsFailure() {
      Err?
    }

    function PropagateFailure<U>(): Result<U>
      requires Err?
    {
      Err(error)
    }

    function Extract(): T
      requires Ok?
    {
      value
    }
  }

  function AsStr(j: Json): Result<string> {
    if j.Str? then Ok(j.s) else Err(WrongShape)
  }

  function AsArr(j: Json): Result<seq<Json>> {
    if j.Arr? then Ok(j.items) else Err(WrongShape)
  }

  function AsObj(j: Json): Result<Fields> {
    if j.Obj? then Ok(j.fields) else Err(WrongShape)
  }

  /** A field that has to be there. */
  function Need(o: Fields, key: string): Result<Json> {
    if key in o then Ok(o[key]) else Err(WrongShape)
  }

  function NeedStr(o: Fields, key: string): Result<string> {
    var j :- Need(o, key);
    AsStr(j)
  }

  /** A field whose absence or null means "no value". */
  function Nullable(o: Fields, key: string): Option<Json> {
    if key in o && !o[key].Null? then Some(o[key]) else None
  }

  // ---- Letters and blanks -----------------------------------------------------

  function LowerChar(c: char): char {
    if 'A' <= c <= 'Z' then (c as int + 32) as char else c
  }

  function Lower(s: string): (l: string)
    ensures |l| == |s|
  {
    seq(|s|, i requires 0 <= i < |s| => LowerChar(s[i]))
  }

  /** `eq_ignore_ascii_case`. */
  predicate SameIgnoringCase(a: string, b: string) {
    |a| == |b| && forall i | 0 <= i < |a| :: LowerChar(a[i]) == LowerChar(b[i])
  }

  /** Comparing with a lower-case word, the two parsers' ways of ignoring case agree. */
  lemma CaseAgrees(s: string, word: string)
    requires Lower(word) == word
    ensures SameIgnoringCase(s, word) <==> Lower(s) == word
  {
    if Lower(s) == word {
      forall i | 0 <= i < |s|
        ensures LowerChar(s[i]) == LowerChar(word[i])
      {
        assert LowerChar(s[i]) == Lower(s)[i] == word[i] == Lower(word)[i];
      }
    }
    if SameIgnoringCase(s, word) {
      forall i | 0 <= i < |s|
        ensures Lower(s)[i] == word[i]
      {
        assert Lower(word)[i] == word[i];
      }
    }
  }

  /**
   * `c` is the small letter `w`, or the capital at the same place of the alphabet; anything else
   * only matches itself.
   */
  predicate SameLetter(c: char, w: char) {
    c == w || ('a' <= w <= 'z' && 'A' <= c <= 'Z' && c as int - 'A' as int == w as int - 'a' as int)
  }

  /** `s` is `word`, in small letters, up to the case of its letters. */
  predicate Spells(s: string, word: string) {
    |s| == |word| && forall i | 0 <= i < |s| :: SameLetter(s[i], word[i])
  }

  predicate Small(word: string) {
    forall c | c in word :: 'a' <= c <= 'z'
  }

  /** Both parsers' comparisons with a word in small letters accept exactly its spellings. */
  lemma SpellingIsWhatMatters(s: string, word: string)
    requires Small(word)
    ensures SameIgnoringCase(s, word) <==> Spells(s, word)
    ensures Lower(s) == word <==> Spells(s, word)
    ensures Lower(word) == word
  {
    assert forall i | 0 <= i < |word| :: word[i] in word;
    forall i | 0 <= i < |word|
      ensures Lower(word)[i] == word[i]
    {
    }
    CaseAgrees(s, word);
  }

  /** White space within ASCII, as `trim` sees it. */
  predicate Space(c: char) {
    c == ' ' || '\t' <= c <= '\r'
  }

  predicate Blank(s: string) {
    forall c | c in s :: Space(c)
  }

  /** `trim`: strips white space from both ends. */
  function Trim(s: string): string {
    if s == [] then []
    else if Space(s[0]) then Trim(s[1..])
    else if Space(s[|s| - 1]) then Trim(s[..|s| - 1])
    else s
  }

  /** `s.trim().is_empty()`, and the six codes that count as white space. */
  lemma {:induction false} BlankIff(s: string)
    ensures Blank(s) <==> Trim(s) == []
    ensures Blank(s) <==> forall c | c in s :: c as int in {9, 10, 11, 12, 13, 32}
  {
    if s == [] {
    } else if Space(s[0]) {
      BlankIff(s[1..]);
      assert s == [s[0]] + s[1..];
    } else {
      assert s[0] in s;
      if Space(s[|s| - 1]) {
        BlankIff(s[..|s| - 1]);
        assert s[0] in s[..|s| - 1];
      }
    }
  }

  // ---- Configuration ----------------------------------------------------------

  datatype Reality = Reality(serverName: string, publicKey: string, shortId: string, fingerprint: string)

  datatype Outbound = Outbound(
    tag: string,
    address: string,
    port: int,
    userId: string,
    flow: string,
    grpcServiceName: string,
    reality: Reality)

  datatype IpAddr = V4(octets: seq<byte>) | V6(octets: seq<byte>)

  /** The standard library's address parser; nothing about it is assumed unless said. */
  type IpParser = string -> Option<IpAddr>
}
