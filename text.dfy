/** String operations the core takes from Python's `str`, `re`, `os.path`
    and `pathlib`, restated on sequences of characters. */
module Text {
  import opened Wrappers

  /** Python's whitespace: the characters `str.isspace()`, `str.strip()` and
      the regular-expression class `\s` all recognise. */
  predicate IsSpace(c: char)
  {
    || c == ' ' || c == '\t' || c == '\n' || c == '\r'
    || c == '\U{000B}' || c == '\U{000C}'
    || ('\U{001C}' <= c <= '\U{001F}')
    || c == '\U{0085}' || c == '\U{00A0}' || c == '\U{1680}'
    || ('\U{2000}' <= c <= '\U{200A}')
    || c == '\U{2028}' || c == '\U{2029}' || c == '\U{202F}' || c == '\U{205F}' || c == '\U{3000}'
  }

  /** `s.rstrip()`: drops trailing whitespace and nothing else. */
  function RStrip(s: string): (r: string)
    ensures r <= s
    ensures r == [] || !IsSpace(r[|r| - 1])
    ensures forall k :: |r| <= k < |s| ==> IsSpace(s[k])
  {
    if s != [] && IsSpace(s[|s| - 1]) then RStrip(s[..|s| - 1]) else s
  }

  /** `s.lstrip()`: drops leading whitespace and nothing else. */
  function LStrip(s: string): (r: string)
    ensures |r| <= |s| && r == s[|s| - |r|..]
    ensures r == [] || !IsSpace(r[0])
    ensures forall k :: 0 <= k < |s| - |r| ==> IsSpace(s[k])
  {
    if s != [] && IsSpace(s[0]) then LStrip(s[1..]) else s
  }

  /** `s.strip()`. */
  function Strip(s: string): string
  {
    LStrip(RStrip(s))
  }

  /** `p` occurs in `s` starting at index `i`. */
  predicate OccursAt(s: string, p: string, i: int)
  {
    0 <= i && i + |p| <= |s| && s[i..i + |p|] == p
  }

  /** `s.find(p, k)`: the first index at or after `k` where `p` occurs. */
  function FindFrom(s: string, p: string, k: nat): (r: Option<nat>)
    decreases |s| - k
    ensures r.Some? ==> k <= r.value && OccursAt(s, p, r.value)
    ensures r.Some? ==> forall i :: k <= i < r.value ==> !OccursAt(s, p, i)
    ensures r.None? ==> forall i :: k <= i ==> !OccursAt(s, p, i)
  {
    if k + |p| > |s| then None
    else if s[k..k + |p|] == p then Some(k)
    else FindFrom(s, p, k + 1)
  }

  /** `p in s` for strings: substring containment. */
  function Contains(s: string, p: string): (b: bool)
    ensures b <==> exists i :: OccursAt(s, p, i)
  {
    FindFrom(s, p, 0).Some?
  }

  /** `s.find(c)` for one character. */
  function FirstIndexOf(s: string, c: char): (r: Option<nat>)
    ensures r.Some? ==> r.value < |s| && s[r.value] == c && c !in s[..r.value]
    ensures r.None? ==> c !in s
  {
    if s == [] then None
    else if s[0] == c then Some(0)
    else match FirstIndexOf(s[1..], c)
      case None => None
      case Some(j) => assert s[..j + 1] == [s[0]] + s[1..][..j]; Some(j + 1)
  }

  /** `s.rfind(c)` for one character. */
  function LastIndexOf(s: string, c: char): (r: Option<nat>)
    ensures r.Some? ==> r.value < |s| && s[r.value] == c && c !in s[r.value + 1..]
    ensures r.None? ==> c !in s
  {
    if s == [] then None
    else if s[|s| - 1] == c then Some(|s| - 1)
    else match LastIndexOf(s[..|s| - 1], c)
      case None => None
      case Some(j) => assert s[j + 1..] == s[..|s| - 1][j + 1..] + [s[|s| - 1]]; Some(j)
  }

  /** `re.sub("[...]", rep, s)` for a character class `cls`: every character
      of the class is replaced by `rep`, every other one is kept. */
  function ReplaceEach(s: string, cls: set<char>, rep: string): (r: string)
    ensures forall c :: c in r ==> c in rep || (c in s && c !in cls)
  {
    if s == [] then []
    else (if s[0] in cls then rep else [s[0]]) + ReplaceEach(s[1..], cls, rep)
  }

  /** With a one-character replacement the result has the input's length
      and differs exactly where the class matched. */
  lemma {:induction false} ReplaceEachPointwise(s: string, cls: set<char>, rep: char)
    ensures |ReplaceEach(s, cls, [rep])| == |s|
    ensures forall k :: 0 <= k < |s| ==>
      ReplaceEach(s, cls, [rep])[k] == if s[k] in cls then rep else s[k]
  {
    if s != [] {
      ReplaceEachPointwise(s[1..], cls, rep);
    }
  }

  /** Replacing one character by itself changes nothing. */
  lemma {:induction false} ReplaceEachIdentity(s: string, c: char)
    ensures ReplaceEach(s, {c}, [c]) == s
  {
    if s != [] {
      ReplaceEachIdentity(s[1..], c);
      assert s == [s[0]] + s[1..];
    }
  }

  /** Removing a class of characters from a text free of them changes nothing. */
  lemma {:induction false} ReplaceEachAbsent(s: string, cls: set<char>, rep: string)
    requires forall c :: c in s ==> c !in cls
    ensures ReplaceEach(s, cls, rep) == s
  {
    if s != [] {
      ReplaceEachAbsent(s[1..], cls, rep);
      assert s == [s[0]] + s[1..];
    }
  }

  /** `s.split(c)[-1]`: the text after the last `c`, all of `s` without one. */
  function AfterLast(s: string, c: char): (r: string)
    ensures c !in r
  {
    match LastIndexOf(s, c)
    case None => s
    case Some(j) => s[j + 1..]
  }

  /** The text after the last `c` is a suffix of `s`, preceded by a `c`
      unless it is all of `s`. */
  lemma AfterLastShape(s: string, c: char)
    ensures |AfterLast(s, c)| <= |s| && AfterLast(s, c) == s[|s| - |AfterLast(s, c)|..]
    ensures AfterLast(s, c) != s ==> |AfterLast(s, c)| < |s| && s[|s| - |AfterLast(s, c)| - 1] == c
  {
  }

  /** `os.path.basename(p)`: the text after the last `/`. */
  function Basename(path: string): string
  {
    AfterLast(path, '/')
  }

  /** `pathlib.PurePath(name).suffix`: from the last dot, unless the dot
      is the first or the last character. */
  function Suffix(name: string): (r: string)
    ensures r == [] || (r[0] == '.' && |r| >= 2 && |r| < |name| && r == name[|name| - |r|..])
  {
    match LastIndexOf(name, '.')
    case None => []
    case Some(i) => if 0 < i < |name| - 1 then name[i..] else []
  }

  /** The suffix starts at the last dot, and it is empty exactly when the
      name has no dot, ends in one, or has its only dot in front. */
  lemma SuffixFromLastDot(name: string)
    ensures Suffix(name) != [] ==> '.' !in Suffix(name)[1..]
    ensures Suffix(name) == [] <==>
      '.' !in name || name[|name| - 1] == '.' || (name[0] == '.' && '.' !in name[1..])
  {
  }

  /** `str.lower()` on ASCII letters. */
  function LowerChar(c: char): (r: char)
    ensures 'A' <= c <= 'Z' ==> 'a' <= r <= 'z'
    ensures !('A' <= c <= 'Z') ==> r == c
  {
    if 'A' <= c <= 'Z' then (c as int + 32) as char else c
  }

  /** `s.lower()` on ASCII letters. */
  function Lower(s: string): (r: string)
    ensures |r| == |s|
    ensures forall k :: 0 <= k < |s| ==> r[k] == LowerChar(s[k])
  {
    if s == [] then [] else [LowerChar(s[0])] + Lower(s[1..])
  }
}
