/** The two response normalisers: `clean_string` for captions and
    `clean_json` for the structured metadata. `json.dumps`, `json.loads`
    and `repair_json` are the foreign helpers of `JsonLib`. */
module Cleaning {
  import opened Wrappers
  import opened Values
  import opened Text

  /** No two consecutive backslashes. */
  predicate NoDoubleBackslash(s: string)
  {
    forall k :: 0 <= k < |s| - 1 ==> !(s[k] == '\\' && s[k + 1] == '\\')
  }

  /** `re.sub(r"\\{2}", "", s)`: pairs of backslashes are removed, scanning
      left to right without overlap, so a run of n backslashes keeps n % 2. */
  function RemoveBackslashPairs(s: string): (r: string)
    ensures |r| <= |s|
    ensures forall c :: c in r ==> c in s
    ensures r != [] && r[0] == '\\' ==> s != [] && s[0] == '\\'
    ensures NoDoubleBackslash(r)
  {
    if |s| >= 2 && s[0] == '\\' && s[1] == '\\' then RemoveBackslashPairs(s[2..])
    else if s == [] then []
    else [s[0]] + RemoveBackslashPairs(s[1..])
  }

  /** On a text without a pair of backslashes the substitution changes nothing. */
  lemma {:induction false} RemoveBackslashPairsFixed(s: string)
    requires NoDoubleBackslash(s)
    ensures RemoveBackslashPairs(s) == s
  {
    if s != [] {
      RemoveBackslashPairsFixed(s[1..]);
      assert s == [s[0]] + s[1..];
    }
  }

  /** The character class `["""]` as written: three straight quotes, that is
      the straight quote alone, replaced by a straight quote. */
  const QuoteClass: set<char> := {'"', '"', '"'}

  /** Folding the class `["""]` leaves every text as it is. */
  lemma QuoteFoldingIsIdentity(s: string)
    ensures ReplaceEach(s, QuoteClass, "\"") == s
  {
    assert QuoteClass == {'"'};
    ReplaceEachIdentity(s, '"');
  }

  /** The three substitutions of `clean_string`, before truncation. */
  function Substituted(s: string): string
  {
    RemoveBackslashPairs(ReplaceEach(ReplaceEach(s, {'\n'}, ""), QuoteClass, "\""))
  }

  /** `data[:data.rfind('.') + 1]` when there is a period, else `data`. */
  function TruncateAtLastPeriod(t: string): (r: string)
    ensures r <= t
    ensures '.' in t ==> r != [] && r[|r| - 1] == '.' && '.' !in t[|r|..]
    ensures '.' !in t ==> r == t
  {
    match LastIndexOf(t, '.')
    case None => t
    case Some(j) => t[..j + 1]
  }

  /** A text that has no period or already ends with one is not shortened. */
  lemma TruncateFixed(t: string)
    requires '.' !in t || t[|t| - 1] == '.'
    ensures TruncateAtLastPeriod(t) == t
  {
  }

  /** `clean_string` on a string. */
  function CleanText(s: string): string
  {
    TruncateAtLastPeriod(Substituted(s))
  }

  /** `clean_string`: a dict is serialised and cleaned, a string is cleaned,
      any other value (None among them) is returned unchanged. */
  function CleanString(data: Json, lib: JsonLib): (r: Json)
    ensures data.JStr? ==> r == JStr(CleanText(data.s))
    ensures data.JObj? ==> r == JStr(CleanText(lib.dumps(data)))
    ensures !data.JStr? && !data.JObj? ==> r == data
  {
    match data
    case JObj(_) => JStr(CleanText(lib.dumps(data)))
    case JStr(s) => JStr(CleanText(s))
    case _ => data
  }

  /** What a cleaned caption looks like: one line, no doubled backslash,
      ending at its last period if it has one, and a prefix of the
      substituted input that stops at that input's last period. */
  lemma CleanTextProperties(s: string)
    ensures '\n' !in CleanText(s)
    ensures NoDoubleBackslash(CleanText(s))
    ensures '.' in CleanText(s) ==> CleanText(s)[|CleanText(s)| - 1] == '.'
    ensures CleanText(s) <= Substituted(s)
    ensures '.' in Substituted(s) ==> '.' !in Substituted(s)[|CleanText(s)|..]
    ensures '.' !in Substituted(s) ==> CleanText(s) == Substituted(s)
  {
    var a := ReplaceEach(s, {'\n'}, "");
    var b := ReplaceEach(a, QuoteClass, "\"");
    var t := RemoveBackslashPairs(b);
    var r := TruncateAtLastPeriod(t);
    assert '\n' !in a;
    assert '\n' !in b;
    assert '\n' !in t;
    assert forall k :: 0 <= k < |r| ==> r[k] == t[k];
    if '.' in r {
      assert '.' in t;
    }
  }

  /** Cleaning a caption twice is cleaning it once. */
  lemma CleanTextIdempotent(s: string)
    ensures CleanText(CleanText(s)) == CleanText(s)
  {
    var r := CleanText(s);
    CleanTextProperties(s);
    ReplaceEachAbsent(r, {'\n'}, "");
    QuoteFoldingIsIdentity(r);
    RemoveBackslashPairsFixed(r);
    assert Substituted(r) == r;
    TruncateFixed(r);
  }

  /** `clean_string` applied to its own result changes nothing. */
  lemma CleanStringIdempotent(data: Json, lib: JsonLib)
    ensures CleanString(CleanString(data, lib), lib) == CleanString(data, lib)
  {
    match data
    case JObj(_) => CleanTextIdempotent(lib.dumps(data));
    case JStr(s) => CleanTextIdempotent(s);
    case _ =>
  }

  /** A fenced block: "```json" at `i` and a closing "```" at `j` after it. */
  ghost predicate FenceAt(s: string, i: int, j: int)
  {
    OccursAt(s, "```json", i) && i + 7 <= j && OccursAt(s, "```", j)
  }

  /** The block `re.search(r"```json\s*(.*?)\s*```", s, re.DOTALL)` finds:
      the first "```json", and the first "```" after it. */
  ghost predicate FirstFence(s: string, i: int, j: int)
  {
    && FenceAt(s, i, j)
    && (forall k :: 0 <= k < i ==> !OccursAt(s, "```json", k))
    && (forall k :: i + 7 <= k < j ==> !OccursAt(s, "```", k))
  }

  lemma FenceFound(s: string, i: nat, j: nat)
    requires FindFrom(s, "```json", 0) == Some(i) && FindFrom(s, "```", i + 7) == Some(j)
    ensures FirstFence(s, i, j) && i + 7 <= j <= |s|
  {
  }

  /** Without an opening fence, or without a closing one after the first
      opening fence, there is no fenced block at all. */
  lemma NoFence(s: string)
    requires || FindFrom(s, "```json", 0).None?
             || (FindFrom(s, "```json", 0).Some? && FindFrom(s, "```", FindFrom(s, "```json", 0).value + 7).None?)
    ensures forall i, j :: !FenceAt(s, i, j)
  {
  }

  /** `match.group(1).strip()` of the fenced-block search: the text between
      the first "```json" and the next "```", without surrounding
      whitespace (the lazy group and the greedy `\s*` on both sides leave
      exactly that); None when there is no such block anywhere. */
  function FencedBlock(s: string): (r: Option<string>)
    ensures r.Some? ==> exists i, j :: FirstFence(s, i, j) && r.value == Strip(s[i + 7..j])
    ensures r.None? ==> forall i, j :: !FenceAt(s, i, j)
  {
    match FindFrom(s, "```json", 0)
    case None => NoFence(s); None
    case Some(i) =>
      match FindFrom(s, "```", i + 7)
      case None => NoFence(s); None
      case Some(j) => FenceFound(s, i, j); Some(Strip(s[i + 7..j]))
  }

  /** `re.search(r"\{.*\}", s, re.DOTALL).group(0)`: from the first `{` to
      the last `}`; None when no `{` comes before some `}`. */
  function BraceSpan(s: string): (r: Option<string>)
    ensures r.Some? ==> exists i, j ::
      && 0 <= i < j < |s| && s[i] == '{' && s[j] == '}'
      && '{' !in s[..i] && '}' !in s[j + 1..] && r.value == s[i..j + 1]
    ensures r.None? ==> forall i, j :: 0 <= i < j < |s| ==> !(s[i] == '{' && s[j] == '}')
  {
    match FirstIndexOf(s, '{')
    case None => None
    case Some(i) =>
      match LastIndexOf(s, '}')
      case None => None
      case Some(j) =>
        if i < j then Some(s[i..j + 1])
        else
          assert forall a :: 0 <= a < i ==> s[a] == s[..i][a];
          assert forall b :: j < b < |s| ==> s[b] == s[j + 1..][b - j - 1];
          None
  }

  /** The text `clean_json` hands to the repair step, before newline
      replacement: the fenced block's interior, else the brace span, else
      the whole input. */
  function RepairInput(s: string): string
  {
    match FencedBlock(s)
    case Some(t) => t
    case None =>
      match BraceSpan(s)
      case Some(t) => t
      case None => s
  }

  /** With a fenced block anywhere, the repair input is the first block's
      stripped interior. */
  lemma RepairInputFenced(s: string)
    requires exists i, j :: FenceAt(s, i, j)
    ensures exists i, j :: FirstFence(s, i, j) && RepairInput(s) == Strip(s[i + 7..j])
  {
    assert FencedBlock(s).Some?;
  }

  /** Without a fenced block, a `{` before a `}` makes the repair input the
      brace span (which runs from the first `{` to the last `}`). */
  lemma RepairInputBraces(s: string)
    requires forall i, j :: !FenceAt(s, i, j)
    requires exists i, j :: 0 <= i < j < |s| && s[i] == '{' && s[j] == '}'
    ensures BraceSpan(s).Some? && RepairInput(s) == BraceSpan(s).value
  {
    FenceFree(s);
  }

  /** The fenced-block search finds nothing in a text without a fence. */
  lemma FenceFree(s: string)
    requires forall i, j :: !FenceAt(s, i, j)
    ensures FencedBlock(s) == None
  {
  }

  /** With neither a fenced block nor a brace pair the text passes through. */
  lemma RepairInputPlain(s: string)
    requires forall i, j :: !FenceAt(s, i, j)
    requires forall i, j :: 0 <= i < j < |s| ==> !(s[i] == '{' && s[j] == '}')
    ensures RepairInput(s) == s
  {
    FenceFree(s);
  }

  /** `re.sub(r"\n", " ", …)` and the quote folding applied to the repair input. */
  function RepairText(s: string): (u: string)
    ensures |u| == |RepairInput(s)|
    ensures forall k :: 0 <= k < |u| ==> u[k] == if RepairInput(s)[k] == '\n' then ' ' else RepairInput(s)[k]
    ensures '\n' !in u
  {
    var t := RepairInput(s);
    ReplaceEachPointwise(t, {'\n'}, ' ');
    QuoteFoldingIsIdentity(ReplaceEach(t, {'\n'}, " "));
    ReplaceEach(ReplaceEach(t, {'\n'}, " "), QuoteClass, "\"")
  }

  /** `json.loads(repair_json(text))`, and the text itself when that raises
      JSONDecodeError. */
  function ParseOrText(text: string, lib: JsonLib): (r: Json)
    ensures lib.loads(lib.repair(text)).None? ==> r == JStr(text)
    ensures lib.loads(lib.repair(text)).Some? ==> r == lib.loads(lib.repair(text)).value
  {
    match lib.loads(lib.repair(text))
    case Some(v) => v
    case None => JStr(text)
  }

  /** `clean_json`: None gives the empty string; a dict is returned as
      `json.loads(json.dumps(d))`, or, if that fails, recovered from its
      serialisation; a string is recovered from the repair text; any other
      value makes `re.search` raise TypeError. */
  function CleanJson(data: Json, lib: JsonLib): (r: Result<Json, Exception>)
    ensures data.JNull? ==> r == Ok(JStr(""))
    ensures data.JStr? ==> r == Ok(ParseOrText(RepairText(data.s), lib))
    ensures data.JObj? && lib.loads(lib.dumps(data)).Some? ==> r == Ok(lib.loads(lib.dumps(data)).value)
    ensures data.JObj? && lib.loads(lib.dumps(data)).None? ==> r == Ok(ParseOrText(RepairText(lib.dumps(data)), lib))
    ensures r.Err? <==> data.JBool? || data.JNum? || data.JArr?
  {
    match data
    case JNull => Ok(JStr(""))
    case JObj(_) =>
      var dumped := lib.dumps(data);
      (match lib.loads(dumped)
       case Some(v) => Ok(v)
       case None => Ok(ParseOrText(RepairText(dumped), lib)))
    case JStr(s) => Ok(ParseOrText(RepairText(s), lib))
    case _ => Err(TypeError)
  }

  /** When recovery fails, what comes back is text on one line; it is never
      a failure for a string reply. */
  lemma CleanJsonUnparsedIsOneLine(s: string, lib: JsonLib)
    ensures CleanJson(JStr(s), lib).Ok?
    ensures CleanJson(JStr(s), lib).value.JStr? && lib.loads(lib.repair(RepairText(s))).None? ==>
      '\n' !in CleanJson(JStr(s), lib).value.s
  {
  }
}
