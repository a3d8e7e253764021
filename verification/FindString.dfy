/** The fast string search: plain text, one character of a class, the first non-space, or the spaces at the
    start. Where it answers, it finds what a position-by-position search by the pattern's meaning finds. */
module FindString {
  import opened Wrappers
  import opened Leb128

  type Bytes = seq<byte>

  predicate IsSpace(c: byte) {
    c == 0x20 || 0x09 <= c <= 0x0d
  }

  const PERCENT: byte := 0x25
  const LOWER_S: byte := 0x73
  const UPPER_S: byte := 0x53
  const DASH: byte := 0x2d
  const OPEN: byte := 0x5b
  const CLOSE: byte := 0x5d
  const CARET: byte := 0x5e
  const STAR: byte := 0x2a

  // ----- what patterns mean -----

  /** A class letter behind a percent sign; letters other than `s` stand for themselves here. */
  predicate LetterMatches(letter: byte, c: byte) {
    if letter == LOWER_S then IsSpace(c) else if letter == UPPER_S then !IsSpace(c) else letter == c
  }

  /** Is the byte in the bracket set whose items start at `i` and end before the last byte of `p`? */
  predicate SetMatches(p: Bytes, i: nat, c: byte)
    decreases |p| - i
  {
    if i + 1 >= |p| then false
    else if p[i] == PERCENT then LetterMatches(p[i + 1], c) || SetMatches(p, i + 2, c)
    else if p[i + 1] == DASH && i + 3 < |p| then p[i] <= c <= p[i + 2] || SetMatches(p, i + 3, c)
    else p[i] == c || SetMatches(p, i + 1, c)
  }

  /** How a pattern is searched for. */
  datatype Form = Literal | NonSpace | Spaces | Set

  /** The length of the match at position `at`, if there is one. */
  function MatchAt(form: Form, text: Bytes, p: Bytes, at: nat): Option<nat> {
    match form
    case Literal => if at + |p| <= |text| && text[at..at + |p|] == p then Some(|p|) else None
    case NonSpace => if at < |text| && !IsSpace(text[at]) then Some(1) else None
    case Set => if at < |text| && SetMatches(p, 1, text[at]) then Some(1) else None
    case Spaces => if at <= |text| then Some(SpaceRun(text, at)) else None
  }

  function SpaceRun(text: Bytes, at: nat): (n: nat)
    ensures at <= |text| ==> at + n <= |text|
    decreases |text| - at
  {
    if at < |text| && IsSpace(text[at]) then 1 + SpaceRun(text, at + 1) else 0
  }

  /** The leftmost match from `at` on; an anchored pattern is tried at `at` only. */
  function Leftmost(form: Form, text: Bytes, p: Bytes, at: nat): Option<(nat, nat)>
    decreases |text| + 1 - at
  {
    if at > |text| then None
    else
      match MatchAt(form, text, p, at)
      case Some(n) => Some((at, n))
      case None => if form.Spaces? then None else Leftmost(form, text, p, at + 1)
  }

  lemma {:induction false} LeftmostMeans(form: Form, text: Bytes, p: Bytes, at: nat)
    ensures match Leftmost(form, text, p, at)
            case Some((k, n)) =>
              && at <= k && MatchAt(form, text, p, k) == Some(n) && (form.Spaces? ==> k == at)
              && forall j :: at <= j < k ==> MatchAt(form, text, p, j).None?
            case None => forall j :: at <= j <= |text| && (form.Spaces? ==> j == at) ==> MatchAt(form, text, p, j).None?
    decreases |text| + 1 - at
  {
    if at <= |text| && MatchAt(form, text, p, at).None? && !form.Spaces? {
      LeftmostMeans(form, text, p, at + 1);
    }
  }

  // ----- classes -----

  /** A set reduced to spaces, non-spaces and up to sixteen bytes. */
  datatype FindClass = FindClass(spaces: bool, nonSpaces: bool, literals: seq<byte>)

  predicate InClass(k: FindClass, c: byte) {
    (k.spaces && IsSpace(c)) || (k.nonSpaces && !IsSpace(c)) || c in k.literals
  }

  /** Sets the fast search takes: no ranges, no complement, no classes but spaces. */
  predicate SimpleItems(p: Bytes, i: nat, room: nat)
    decreases |p| - i
  {
    if i + 1 >= |p| then i + 1 == |p|
    else if p[i] == DASH || p[i] == CLOSE then false
    else if p[i] == PERCENT then i + 2 < |p| && (p[i + 1] == LOWER_S || p[i + 1] == UPPER_S) && SimpleItems(p, i + 2, room)
    else room > 0 && SimpleItems(p, i + 1, room - 1)
  }

  predicate SimpleSet(p: Bytes) {
    |p| >= 3 && p[0] == OPEN && p[|p| - 1] == CLOSE && p[1] != CARET && SimpleItems(p, 1, 16)
  }

  /** A simple set never ends in a dash, so no item of it is read as a range. */
  lemma NoRange(p: Bytes, i: nat, room: nat)
    requires SimpleItems(p, i, room) && i + 1 < |p| && p[i] != PERCENT
    ensures p[i + 1] != DASH || i + 2 >= |p|
  {
  }

  method SimpleFindClass(p: Bytes) returns (r: Option<FindClass>)
    ensures r.Some? <==> SimpleSet(p)
    ensures r.Some? ==> forall c :: InClass(r.value, c) <==> SetMatches(p, 1, c)
  {
    if |p| < 3 || p[0] != OPEN || p[|p| - 1] != CLOSE || p[1] == CARET {
      return None;
    }
    var k := FindClass(false, false, []);
    var index := 1;
    while index < |p| - 1
      invariant 1 <= index <= |p| - 1 && |k.literals| <= 16
      invariant SimpleItems(p, 1, 16) <==> SimpleItems(p, index, 16 - |k.literals|)
      invariant SimpleItems(p, 1, 16) ==> forall c :: SetMatches(p, 1, c) <==> InClass(k, c) || SetMatches(p, index, c)
      decreases |p| - index
    {
      var next := p[index];
      if next == DASH || next == CLOSE {
        return None;
      }
      if next == PERCENT {
        index := index + 1;
        if index >= |p| - 1 || (p[index] != LOWER_S && p[index] != UPPER_S) {
          return None;
        }
        k := if p[index] == LOWER_S then k.(spaces := true) else k.(nonSpaces := true);
      } else {
        if |k.literals| == 16 {
          return None;
        }
        if SimpleItems(p, 1, 16) {
          NoRange(p, index, 16 - |k.literals|);
        }
        k := k.(literals := k.literals + [next]);
      }
      index := index + 1;
    }
    return Some(k);
  }

  // ----- searching -----

  predicate Special(c: byte) {
    c in [0x5e, 0x24, 0x2a, 0x2b, 0x3f, 0x2e, 0x28, 0x5b, 0x25, 0x2d]
  }

  /** How the fast search reads a pattern, or that it declines. */
  function FormOf(p: Bytes, plain: bool): Option<Form> {
    if plain then Some(Literal)
    else if p == [CARET, PERCENT, LOWER_S, STAR] then Some(Spaces)
    else if p == [PERCENT, UPPER_S] then Some(NonSpace)
    else if SimpleSet(p) then Some(Set)
    else if exists k :: 0 <= k < |p| && Special(p[k]) then None
    else Some(Literal)
  }

  /** The position a search starts at: positions count from 1, negative ones from the end, and what lies before
      the text is its beginning. */
  function StartOf(size: nat, init: int): (r: nat)
    ensures init >= 1 ==> r + 1 == init
    ensures init < 0 && size + 1 + init >= 1 ==> r + 1 == size + 1 + init
    ensures init == 0 || (init < 0 && size + 1 + init < 1) ==> r + 1 == 1
  {
    var i := if init < 0 then init + size + 1 else init;
    if i < 1 then 0 else i - 1
  }

  /** The next place where the first byte of the pattern stands. */
  method FindByte(text: Bytes, c: byte, from: nat, last: nat) returns (r: Option<nat>)
    requires last < |text|
    ensures r.Some? ==> from <= r.value <= last && text[r.value] == c
    ensures forall j :: from <= j <= last && (r.Some? ==> j < r.value) ==> text[j] != c
  {
    var k := from;
    while k <= last
      invariant from <= k && forall j :: from <= j <= last && j < k ==> text[j] != c
    {
      if text[k] == c {
        return Some(k);
      }
      k := k + 1;
    }
    return None;
  }

  /** Search for literal text by its first byte. */
  method FindLiteral(text: Bytes, p: Bytes, start: nat) returns (r: Option<nat>)
    requires p != [] && start + |p| <= |text|
    ensures r.Some? ==> start <= r.value && MatchAt(Literal, text, p, r.value).Some?
    ensures forall j :: start <= j && (r.Some? ==> j < r.value) ==> MatchAt(Literal, text, p, j).None?
  {
    var cursor, last := start, |text| - |p|;
    while cursor <= last
      invariant start <= cursor
      invariant forall j :: start <= j < cursor ==> MatchAt(Literal, text, p, j).None?
      decreases last + 1 - cursor
    {
      var candidate := FindByte(text, p[0], cursor, last);
      if candidate.None? {
        forall j | cursor <= j ensures MatchAt(Literal, text, p, j).None? {
          FirstByte(text, p, j);
        }
        return None;
      }
      forall j | cursor <= j < candidate.value ensures MatchAt(Literal, text, p, j).None? {
        FirstByte(text, p, j);
      }
      if |p| == 1 || text[candidate.value + 1..candidate.value + |p|] == p[1..] {
        assert text[candidate.value..candidate.value + |p|] == [text[candidate.value]] + text[candidate.value + 1..candidate.value + |p|];
        assert p == [p[0]] + p[1..];
        return candidate;
      }
      RestDiffers(text, p, candidate.value);
      cursor := candidate.value + 1;
    }
    return None;
  }

  lemma FirstByte(text: Bytes, p: Bytes, j: nat)
    requires p != [] && (j + |p| <= |text| ==> text[j] != p[0])
    ensures MatchAt(Literal, text, p, j).None?
  {
    if j + |p| <= |text| {
      assert text[j..j + |p|][0] == text[j];
    }
  }

  lemma RestDiffers(text: Bytes, p: Bytes, j: nat)
    requires p != [] && j + |p| <= |text| && text[j + 1..j + |p|] != p[1..]
    ensures MatchAt(Literal, text, p, j).None?
  {
    assert text[j + 1..j + |p|] == text[j..j + |p|][1..];
  }

  predicate Accepts(form: Form, k: FindClass, c: byte) {
    if form.NonSpace? then !IsSpace(c) else InClass(k, c)
  }

  /** The search from a given start: the index found and the length of the match. */
  method Search(form: Form, k: FindClass, text: Bytes, p: Bytes, start: nat) returns (r: Option<(nat, nat)>)
    requires start <= |text| && (form.Set? ==> forall c :: InClass(k, c) <==> SetMatches(p, 1, c))
    ensures r == Leftmost(form, text, p, start)
  {
    LeftmostMeans(form, text, p, start);
    match form
    case Spaces =>
      var n := 0;
      while start + n < |text| && IsSpace(text[start + n])
        invariant start + n <= |text| && SpaceRun(text, start) == n + SpaceRun(text, start + n)
      {
        n := n + 1;
      }
      return Some((start, n));
    case Literal =>
      if |p| > |text| - start {
        return None;
      }
      if p == [] {
        return Some((start, 0));
      }
      var at := FindLiteral(text, p, start);
      r := if at.Some? then Some((at.value, |p|)) else None;
    case _ =>
      var index := start;
      while index < |text|
        invariant start <= index <= |text|
        invariant forall j :: start <= j < index ==> MatchAt(form, text, p, j).None?
      {
        if Accepts(form, k, text[index]) {
          assert MatchAt(form, text, p, index) == Some(1);
          return Some((index, 1));
        }
        index := index + 1;
      }
      return None;
  }

  /** The helper as called: it declines patterns it does not know, and otherwise answers with the 1-based
      first and last position of the leftmost match from the start on, or nil exactly if there is none. */
  method Find(text: Bytes, p: Bytes, init: int, plain: bool) returns (r: Option<Option<(nat, int)>>)
    ensures r.Some? <==> FormOf(p, plain).Some?
    ensures r.Some? ==>
              r.value == match Leftmost(FormOf(p, plain).value, text, p, StartOf(|text|, init))
                         case None => None
                         case Some((k, n)) => Some((k + 1, k + n))
  {
    var form := Literal;
    var k := FindClass(false, false, []);
    if !plain {
      if p == [CARET, PERCENT, LOWER_S, STAR] {
        form := Spaces;
      } else if p == [PERCENT, UPPER_S] {
        form := NonSpace;
      } else {
        var simple := SimpleFindClass(p);
        if simple.Some? {
          form, k := Set, simple.value;
        } else if exists i :: 0 <= i < |p| && Special(p[i]) {
          return None;
        }
      }
    }
    var start := StartOf(|text|, init);
    if start > |text| {
      return Some(None);
    }
    var found := Search(form, k, text, p, start);
    return Some(if found.Some? then Some((found.value.0 + 1, found.value.0 + found.value.1)) else None);
  }
}
