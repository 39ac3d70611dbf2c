// The text field of the terminal interface (src/tui/ui.rs): a string of UTF-8
// bytes with a byte offset, against an editor of characters with an index.

module Editor {
  import opened Wrappers

  type Byte = x: nat | x < 256

  // Unicode scalar values.
  type Scalar = x: nat | x < 0xD800 || 0xE000 <= x < 0x11_0000

  type Text = seq<Scalar>

  // ---------------------------------------------------------------- UTF-8

  // Section 3 of RFC 3629.
  function Encode(c: Scalar): (bytes: seq<Byte>)
    ensures 1 <= |bytes| <= 4
  {
    if c < 0x80 then [c]
    else if c < 0x800 then [0xC0 + c / 64, 0x80 + c % 64]
    else if c < 0x1_0000 then [0xE0 + c / 4096, 0x80 + c / 64 % 64, 0x80 + c % 64]
    else [0xF0 + c / 262144, 0x80 + c / 4096 % 64, 0x80 + c / 64 % 64, 0x80 + c % 64]
  }

  predicate Continuation(b: Byte) {
    0x80 <= b < 0xC0
  }

  // The length of a sequence, from its first byte.
  function Width(lead: Byte): (w: nat)
    ensures 1 <= w <= 4
  {
    if lead < 0x80 then 1 else if lead < 0xE0 then 2 else if lead < 0xF0 then 3 else 4
  }

  function Join(high: int, b: Byte): int {
    high * 64 + (b as int - 0x80)
  }

  // The first character, on well-formed bytes.
  function DecodeFirst(bytes: seq<Byte>): int
    requires bytes != [] && Width(bytes[0]) <= |bytes|
  {
    var lead: int := bytes[0];
    match Width(bytes[0])
    case 1 => lead
    case 2 => Join(lead - 0xC0, bytes[1])
    case 3 => Join(Join(lead - 0xE0, bytes[1]), bytes[2])
    case _ => Join(Join(Join(lead - 0xF0, bytes[1]), bytes[2]), bytes[3])
  }

  // One byte that starts a character, and the continuation it announces.
  predicate OneCharacter(bytes: seq<Byte>) {
    && bytes != [] && !Continuation(bytes[0]) && Width(bytes[0]) == |bytes|
    && forall i :: 0 < i < |bytes| ==> Continuation(bytes[i])
  }

  lemma EncodesOneCharacter(c: Scalar)
    ensures OneCharacter(Encode(c))
  {
  }

  // Six bits at a time.
  lemma Sextets(c: nat)
    ensures c == c / 64 * 64 + c % 64
    ensures c / 64 == c / 4096 * 64 + c / 64 % 64
    ensures c / 4096 == c / 262144 * 64 + c / 4096 % 64
  {
    assert c / 64 / 64 == c / 4096 && c / 4096 / 64 == c / 262144;
  }

  // A character is read back, and takes no more bytes than it needs.
  lemma DecodeEncode(c: Scalar)
    ensures OneCharacter(Encode(c)) && DecodeFirst(Encode(c)) == c
    ensures |Encode(c)| == if c <= 0x7F then 1 else if c <= 0x7FF then 2 else if c <= 0xFFFF then 3 else 4
  {
    EncodesOneCharacter(c);
    Sextets(c);
  }

  function Encodings(text: Text): (chunks: seq<seq<Byte>>) {
    seq(|text|, i requires 0 <= i < |text| => Encode(text[i]))
  }

  function Joined(chunks: seq<seq<Byte>>): seq<Byte> {
    if chunks == [] then [] else Joined(chunks[..|chunks| - 1]) + chunks[|chunks| - 1]
  }

  function Utf8(text: Text): seq<Byte> {
    Joined(Encodings(text))
  }

  ghost predicate Characters(chunks: seq<seq<Byte>>) {
    forall i :: 0 <= i < |chunks| ==> OneCharacter(chunks[i])
  }

  lemma EncodingsAreCharacters(text: Text)
    ensures Characters(Encodings(text))
  {
    forall i | 0 <= i < |text| ensures OneCharacter(Encodings(text)[i]) {
      EncodesOneCharacter(text[i]);
    }
  }

  // ---------------------------------------------------------------- offsets

  lemma ButLast<T>(a: seq<T>, b: seq<T>)
    requires b != []
    ensures (a + b)[..|a + b| - 1] == a + b[..|b| - 1] && (a + b)[|a + b| - 1] == b[|b| - 1]
  {
  }

  lemma {:induction false} JoinedConcat(a: seq<seq<Byte>>, b: seq<seq<Byte>>)
    ensures Joined(a + b) == Joined(a) + Joined(b)
  {
    if b == [] {
      assert a + b == a;
    } else {
      var n := |b| - 1;
      JoinedConcat(a, b[..n]);
      ButLast(a, b);
      assert Joined(a + b) == Joined(a + b[..n]) + b[n];
      assert (Joined(a) + Joined(b[..n])) + b[n] == Joined(a) + (Joined(b[..n]) + b[n]);
    }
  }

  // The byte offset of character k.
  function Offset(chunks: seq<seq<Byte>>, k: nat): nat
    requires k <= |chunks|
  {
    |Joined(chunks[..k])|
  }

  lemma AtOffset(chunks: seq<seq<Byte>>, k: nat)
    requires k <= |chunks|
    ensures Joined(chunks) == Joined(chunks[..k]) + Joined(chunks[k..])
  {
    assert chunks == chunks[..k] + chunks[k..];
    JoinedConcat(chunks[..k], chunks[k..]);
  }

  // The bytes of one character, in place.
  lemma CharacterAt(chunks: seq<seq<Byte>>, k: nat)
    requires k < |chunks|
    ensures Offset(chunks, k + 1) == Offset(chunks, k) + |chunks[k]| <= |Joined(chunks)|
    ensures Joined(chunks)[Offset(chunks, k)..Offset(chunks, k + 1)] == chunks[k]
  {
    assert chunks[..k + 1][..k] == chunks[..k];
    assert Joined(chunks[..k + 1]) == Joined(chunks[..k]) + chunks[k];
    AtOffset(chunks, k + 1);
  }

  lemma ByteAt(chunks: seq<seq<Byte>>, k: nat, i: nat)
    requires k < |chunks| && Offset(chunks, k) <= i < Offset(chunks, k + 1)
    ensures i - Offset(chunks, k) < |chunks[k]| && i < |Joined(chunks)|
    ensures Joined(chunks)[i] == chunks[k][i - Offset(chunks, k)]
  {
    CharacterAt(chunks, k);
    assert Joined(chunks)[i] == Joined(chunks)[Offset(chunks, k)..Offset(chunks, k + 1)][i - Offset(chunks, k)];
  }

  lemma Ends(chunks: seq<seq<Byte>>)
    ensures Offset(chunks, 0) == 0 && Offset(chunks, |chunks|) == |Joined(chunks)|
  {
    assert chunks[..|chunks|] == chunks;
  }

  lemma {:induction false} OffsetsIncrease(chunks: seq<seq<Byte>>, j: nat, k: nat)
    requires Characters(chunks) && j <= k <= |chunks|
    ensures Offset(chunks, j) <= Offset(chunks, k) <= |Joined(chunks)|
    ensures j < k ==> Offset(chunks, j) < Offset(chunks, k)
    decreases k
  {
    AtOffset(chunks, k);
    if j < k {
      OffsetsIncrease(chunks, j, k - 1);
      CharacterAt(chunks, k - 1);
    }
  }

  // ---------------------------------------------------------------- boundaries

  predicate Boundary(bytes: seq<Byte>, i: nat) {
    i == |bytes| || (i < |bytes| && !Continuation(bytes[i]))
  }

  // The character boundaries are exactly the offsets of the characters.
  lemma BoundaryIffOffset(chunks: seq<seq<Byte>>, i: nat)
    requires Characters(chunks)
    ensures Boundary(Joined(chunks), i) <==> exists k :: 0 <= k <= |chunks| && i == Offset(chunks, k)
  {
    Ends(chunks);
    if i < |Joined(chunks)| {
      var k := Containing(chunks, i, 0);
      ByteAt(chunks, k, i);
      assert OneCharacter(chunks[k]);
      if Offset(chunks, k) < i {
        forall j | 0 <= j <= |chunks| ensures i != Offset(chunks, j) {
          if j <= k { OffsetsIncrease(chunks, j, k); } else { OffsetsIncrease(chunks, k + 1, j); }
        }
      }
    } else {
      forall j | 0 <= j <= |chunks| ensures Offset(chunks, j) <= |Joined(chunks)| {
        OffsetsIncrease(chunks, j, j);
      }
    }
  }

  // The character whose bytes include position i.
  lemma {:induction false} Containing(chunks: seq<seq<Byte>>, i: nat, from: nat) returns (k: nat)
    requires from < |chunks| && Offset(chunks, from) <= i < |Joined(chunks)|
    ensures k < |chunks| && Offset(chunks, k) <= i < Offset(chunks, k + 1)
    decreases |chunks| - from
  {
    Ends(chunks);
    if i < Offset(chunks, from + 1) {
      k := from;
    } else {
      k := Containing(chunks, i, from + 1);
    }
  }

  // The last position at or before i that starts a character.
  function LeadBefore(bytes: seq<Byte>, i: nat): (lead: nat)
    requires i < |bytes|
    ensures lead <= i
  {
    if i == 0 || !Continuation(bytes[i]) then i else LeadBefore(bytes, i - 1)
  }

  function PreviousBoundary(bytes: seq<Byte>, cursor: nat): (previous: nat)
    requires cursor <= |bytes|
    ensures previous <= cursor
  {
    if cursor == 0 then 0 else LeadBefore(bytes, cursor - 1)
  }

  function NextBoundary(bytes: seq<Byte>, cursor: nat): nat
    requires cursor <= |bytes|
  {
    if cursor == |bytes| then |bytes|
    else
      var next := cursor + Width(bytes[cursor]);
      if next < |bytes| then next else |bytes|
  }

  lemma {:induction false} LeadFound(bytes: seq<Byte>, lead: nat, i: nat)
    requires lead <= i < |bytes| && !Continuation(bytes[lead])
    requires forall j :: lead < j <= i ==> Continuation(bytes[j])
    ensures LeadBefore(bytes, i) == lead
    decreases i
  {
    if lead < i {
      LeadFound(bytes, lead, i - 1);
    }
  }

  // Of the bytes of a character, the first alone is no continuation.
  lemma LeadByte(chunks: seq<seq<Byte>>, k: nat, j: nat)
    requires Characters(chunks) && k < |chunks| && Offset(chunks, k) <= j < Offset(chunks, k + 1)
    ensures j < |Joined(chunks)| && (Continuation(Joined(chunks)[j]) <==> j != Offset(chunks, k))
  {
    ByteAt(chunks, k, j);
    assert OneCharacter(chunks[k]);
  }

  lemma LeadOfCharacter(chunks: seq<seq<Byte>>, k: nat)
    requires Characters(chunks) && k < |chunks|
    ensures Offset(chunks, k) < Offset(chunks, k + 1) <= |Joined(chunks)|
    ensures LeadBefore(Joined(chunks), Offset(chunks, k + 1) - 1) == Offset(chunks, k)
  {
    OffsetsIncrease(chunks, k, k + 1);
    var lead, last := Offset(chunks, k), Offset(chunks, k + 1) - 1;
    forall j | lead <= j <= last ensures Continuation(Joined(chunks)[j]) <==> j != lead {
      LeadByte(chunks, k, j);
    }
    LeadFound(Joined(chunks), lead, last);
  }

  // Scanning bytes for a boundary is stepping over one character.
  lemma PreviousIsOneBack(chunks: seq<seq<Byte>>, k: nat)
    requires Characters(chunks) && k <= |chunks|
    ensures Offset(chunks, k) <= |Joined(chunks)|
    ensures PreviousBoundary(Joined(chunks), Offset(chunks, k)) == Offset(chunks, if k == 0 then 0 else k - 1)
  {
    if k > 0 {
      LeadOfCharacter(chunks, k - 1);
    }
  }

  lemma NextIsOneOn(chunks: seq<seq<Byte>>, k: nat)
    requires Characters(chunks) && k <= |chunks|
    ensures Offset(chunks, k) <= |Joined(chunks)|
    ensures NextBoundary(Joined(chunks), Offset(chunks, k)) == Offset(chunks, if k == |chunks| then k else k + 1)
  {
    OffsetsIncrease(chunks, k, k);
    Ends(chunks);
    if k < |chunks| {
      OffsetsIncrease(chunks, k, k + 1);
      CharacterAt(chunks, k);
      ByteAt(chunks, k, Offset(chunks, k));
      assert OneCharacter(chunks[k]);
    }
  }

  // ---------------------------------------------------------------- editing characters

  // The Unicode White_Space property.
  predicate Whitespace(c: int) {
    || 9 <= c <= 13 || c == 32 || c == 0x85 || c == 0xA0 || c == 0x1680 || 0x2000 <= c <= 0x200A
    || c == 0x2028 || c == 0x2029 || c == 0x202F || c == 0x205F || c == 0x3000
  }

  datatype Suggestion = Suggestion(display: Text, value: Text, directory: bool)

  // The editor by characters: `at` is the number of characters before the cursor.
  datatype Field = Field(text: Text, at: nat, suggestions: seq<Suggestion>, chosen: nat, error: Option<string>)

  predicate InText(f: Field) {
    f.at <= |f.text|
  }

  // Replaces the characters from `from` up to `to`, leaving the cursor after
  // what was put in.
  function Spliced(f: Field, from: nat, to: nat, put: Text): Field
    requires from <= to <= |f.text|
  {
    f.(text := f.text[..from] + put + f.text[to..], at := from + |put|, error := None)
  }

  // The start of the run of whitespace that ends at k, and of other characters.
  function BeforeSpaces(text: Text, k: nat): (m: nat)
    requires k <= |text|
    ensures m <= k
  {
    if k > 0 && Whitespace(text[k - 1]) then BeforeSpaces(text, k - 1) else k
  }

  function BeforeWord(text: Text, k: nat): (m: nat)
    requires k <= |text|
    ensures m <= k
  {
    if k > 0 && !Whitespace(text[k - 1]) then BeforeWord(text, k - 1) else k
  }

  function WithoutPreviousWord(f: Field): Field
    requires InText(f)
  {
    Spliced(f, BeforeWord(f.text, BeforeSpaces(f.text, f.at)), f.at, [])
  }

  datatype Edit =
    | Insert(c: Scalar) | MoveLeft | MoveRight | Backspace | Delete | DeletePreviousWord
    | KillBefore | KillAfter | Reset(value: Text) | NextSuggestion | PreviousSuggestion | AcceptSuggestion
    | Home | End | Suggest(found: seq<Suggestion>) | Reject(message: string)  // assigned by the key handler

  function Edited(f: Field, e: Edit): (g: Field)
    requires InText(f)
    ensures InText(g)
  {
    match e
    case Insert(c) => Spliced(f, f.at, f.at, [c])
    case MoveLeft => f.(at := if f.at == 0 then 0 else f.at - 1)
    case MoveRight => f.(at := if f.at == |f.text| then f.at else f.at + 1)
    case Backspace => if f.at == 0 then f else Spliced(f, f.at - 1, f.at, [])
    case Delete => if f.at == |f.text| then f else Spliced(f, f.at, f.at + 1, [])
    case DeletePreviousWord => WithoutPreviousWord(f)
    case KillBefore => Spliced(f, 0, f.at, [])
    case KillAfter => Spliced(f, f.at, |f.text|, [])
    case Reset(value) => Field(value, |value|, [], 0, None)
    case NextSuggestion => if f.suggestions == [] then f else f.(chosen := (f.chosen + 1) % |f.suggestions|)
    case PreviousSuggestion =>
      if f.suggestions == [] then f else f.(chosen := (f.chosen + |f.suggestions| - 1) % |f.suggestions|)
    case AcceptSuggestion =>
      if f.chosen < |f.suggestions| then
        var value := f.suggestions[f.chosen].value;
        f.(text := value, at := |value|, error := None)
      else f
    case Home => f.(at := 0)
    case End => f.(at := |f.text|)
    case Suggest(found) => f.(suggestions := found, chosen := 0)
    case Reject(message) => f.(error := Some(message))
  }

  function AllEdited(f: Field, es: seq<Edit>): (g: Field)
    requires InText(f)
    ensures InText(g)
  {
    if es == [] then f else Edited(AllEdited(f, es[..|es| - 1]), es[|es| - 1])
  }

  // Typing a character and taking it back changes nothing but a shown error.
  lemma InsertThenBackspace(f: Field, c: Scalar)
    requires InText(f)
    ensures Edited(Edited(f, Insert(c)), Backspace) == f.(error := None)
  {
    var g := Edited(f, Insert(c));
    assert g.text[..f.at] == f.text[..f.at] && g.text[f.at + 1..] == f.text[f.at..];
    assert f.text[..f.at] + [] + f.text[f.at..] == f.text;
  }

  // The code points with the property White_Space, one by one.
  predicate IsSpace(c: int) {
    c in {0x9, 0xA, 0xB, 0xC, 0xD, 0x20, 0x85, 0xA0, 0x1680, 0x2000, 0x2001, 0x2002, 0x2003, 0x2004, 0x2005, 0x2006,
          0x2007, 0x2008, 0x2009, 0x200A, 0x2028, 0x2029, 0x202F, 0x205F, 0x3000}
  }

  lemma SpaceIs(c: int)
    ensures Whitespace(c) <==> IsSpace(c)
  {
  }

  // From s to m there is no whitespace, from m to the cursor only whitespace, and
  // neither run can be longer.
  ghost predicate PreviousWord(text: Text, at: nat, s: nat, m: nat) {
    && s <= m <= at <= |text|
    && (forall i :: m <= i < at ==> IsSpace(text[i])) && (m > 0 ==> !IsSpace(text[m - 1]))
    && (forall i :: s <= i < m ==> !IsSpace(text[i])) && (s > 0 ==> IsSpace(text[s - 1]))
  }

  // The runs are as long as they can be, and nothing else is.
  lemma {:induction false} SpacesRun(text: Text, k: nat)
    requires k <= |text|
    ensures var m := BeforeSpaces(text, k);
      (forall i :: m <= i < k ==> Whitespace(text[i])) && (m > 0 ==> !Whitespace(text[m - 1]))
  {
    if k > 0 && Whitespace(text[k - 1]) {
      SpacesRun(text, k - 1);
    }
  }

  lemma {:induction false} WordRun(text: Text, k: nat)
    requires k <= |text|
    ensures var s := BeforeWord(text, k);
      (forall i :: s <= i < k ==> !Whitespace(text[i])) && (s > 0 ==> Whitespace(text[s - 1]))
  {
    if k > 0 && !Whitespace(text[k - 1]) {
      WordRun(text, k - 1);
    }
  }

  lemma {:induction false} SpacesRunIs(text: Text, k: nat, m: nat)
    requires m <= k <= |text| && (m > 0 ==> !Whitespace(text[m - 1]))
    requires forall i :: m <= i < k ==> Whitespace(text[i])
    ensures BeforeSpaces(text, k) == m
    decreases k
  {
    if m < k {
      SpacesRunIs(text, k - 1, m);
    }
  }

  lemma {:induction false} WordRunIs(text: Text, k: nat, s: nat)
    requires s <= k <= |text| && (s > 0 ==> Whitespace(text[s - 1]))
    requires forall i :: s <= i < k ==> !Whitespace(text[i])
    ensures BeforeWord(text, k) == s
    decreases k
  {
    if s < k {
      WordRunIs(text, k - 1, s);
    }
  }

  // There is exactly one such pair of runs ..
  lemma PreviousWordIff(text: Text, at: nat, s: nat, m: nat)
    requires at <= |text|
    ensures PreviousWord(text, at, s, m) <==> m == BeforeSpaces(text, at) && s == BeforeWord(text, m)
  {
    SpacesRun(text, at);
    WordRun(text, BeforeSpaces(text, at));
    forall i | 0 <= i < |text| ensures Whitespace(text[i]) <==> IsSpace(text[i]) { SpaceIs(text[i]); }
    if PreviousWord(text, at, s, m) {
      SpacesRunIs(text, at, m);
      WordRunIs(text, m, s);
    }
  }

  // .. and deleting the previous word removes exactly them: the whitespace before
  // the cursor, and the word before that.
  lemma DeletesExactlyPreviousWord(f: Field, s: nat, m: nat)
    requires InText(f) && PreviousWord(f.text, f.at, s, m)
    ensures Edited(f, DeletePreviousWord) == f.(text := f.text[..s] + f.text[f.at..], at := s, error := None)
  {
    PreviousWordIff(f.text, f.at, s, m);
    assert f.text[..s] + [] + f.text[f.at..] == f.text[..s] + f.text[f.at..];
  }

  // ---------------------------------------------------------------- editing bytes

  // Replacing characters replaces their bytes.
  lemma JoinedSplice(chunks: seq<seq<Byte>>, from: nat, to: nat, more: seq<seq<Byte>>)
    requires from <= to <= |chunks| && Characters(chunks)
    ensures Offset(chunks, from) <= Offset(chunks, to) <= |Joined(chunks)|
    ensures Joined(chunks[..from] + more + chunks[to..]) ==
      Joined(chunks)[..Offset(chunks, from)] + Joined(more) + Joined(chunks)[Offset(chunks, to)..]
  {
    OffsetsIncrease(chunks, from, to);
    AtOffset(chunks, from);
    AtOffset(chunks, to);
    JoinedConcat(chunks[..from] + more, chunks[to..]);
    JoinedConcat(chunks[..from], more);
  }

  lemma SpliceBytes(text: Text, from: nat, to: nat, put: Text)
    requires from <= to <= |text|
    ensures var chunks := Encodings(text);
      && Offset(chunks, from) <= Offset(chunks, to) <= |Utf8(text)|
      && Utf8(text[..from] + put + text[to..]) ==
           Utf8(text)[..Offset(chunks, from)] + Utf8(put) + Utf8(text)[Offset(chunks, to)..]
  {
    var chunks := Encodings(text);
    EncodingsAreCharacters(text);
    JoinedSplice(chunks, from, to, Encodings(put));
    EncodingsSplice(text, from, to, put);
  }

  lemma EncodingsSplice(text: Text, from: nat, to: nat, put: Text)
    requires from <= to <= |text|
    ensures Encodings(text[..from] + put + text[to..]) ==
      Encodings(text)[..from] + Encodings(put) + Encodings(text)[to..]
  {
  }

  // The cursor after a splice.
  lemma SpliceOffset(text: Text, from: nat, to: nat, put: Text)
    requires from <= to <= |text|
    ensures Offset(Encodings(text[..from] + put + text[to..]), from + |put|) ==
      Offset(Encodings(text), from) + |Utf8(put)|
  {
    var chunks, more := Encodings(text), Encodings(put);
    var spliced := Encodings(text[..from] + put + text[to..]);
    EncodingsSplice(text, from, to, put);
    assert spliced[..from + |put|] == chunks[..from] + more;
    JoinedConcat(chunks[..from], more);
  }

  // The bytes are those of the text, and the cursor is the offset of character `at`.
  ghost predicate Encodes(bytes: seq<Byte>, cursor: nat, text: Text, at: nat) {
    at <= |text| && bytes == Utf8(text) && cursor == Offset(Encodings(text), at)
  }

  lemma SplicedEncodes(bytes: seq<Byte>, low: nat, high: nat, text: Text, from: nat, to: nat, put: Text)
    requires from <= to && Encodes(bytes, low, text, from) && Encodes(bytes, high, text, to)
    ensures low <= high <= |bytes|
    ensures Encodes(bytes[..low] + Utf8(put) + bytes[high..], low + |Utf8(put)|,
                    text[..from] + put + text[to..], from + |put|)
  {
    SpliceBytes(text, from, to, put);
    SpliceOffset(text, from, to, put);
  }

  lemma DrainedEncodes(bytes: seq<Byte>, low: nat, high: nat, f: Field, from: nat, to: nat)
    requires from <= to && Encodes(bytes, low, f.text, from) && Encodes(bytes, high, f.text, to)
    ensures low <= high <= |bytes|
    ensures var g := Spliced(f, from, to, []);
      Encodes(bytes[..low] + bytes[high..], low, g.text, g.at)
  {
    SplicedEncodes(bytes, low, high, f.text, from, to, []);
    assert Utf8([]) == [];
    assert bytes[..low] + [] == bytes[..low];
  }

  lemma InsertedEncodes(bytes: seq<Byte>, cursor: nat, text: Text, at: nat, c: Scalar)
    requires Encodes(bytes, cursor, text, at)
    ensures cursor <= |bytes|
    ensures Encodes(bytes[..cursor] + Encode(c) + bytes[cursor..], cursor + |Encode(c)|,
                    text[..at] + [c] + text[at..], at + 1)
  {
    SplicedEncodes(bytes, cursor, cursor, text, at, at, [c]);
    Single(c);
  }

  lemma EndsEncode(text: Text)
    ensures Encodes(Utf8(text), 0, text, 0) && Encodes(Utf8(text), |Utf8(text)|, text, |text|)
  {
    Ends(Encodings(text));
  }

  lemma Single(c: Scalar)
    ensures Utf8([c]) == Encode(c)
  {
    var chunks := Encodings([c]);
    assert chunks[..0] == [] && Joined(chunks[..0]) == [];
  }

  class TextEditorState {
    var value: seq<Byte>
    var cursor: nat
    var suggestions: seq<Suggestion>
    var suggestionIndex: nat
    var error: Option<string>
    ghost var text: Text
    ghost var at: nat

    // Compared with true, the predicate stays folded in a proof.
    ghost predicate Valid()
      reads this
    {
      true == Encodes(value, cursor, text, at)
    }

    ghost function Abstract(): Field
      reads this
    {
      Field(text, at, suggestions, suggestionIndex, error)
    }

    constructor ()
      ensures Valid() && Abstract() == Field([], 0, [], 0, None)
    {
      value, cursor, suggestions, suggestionIndex, error := [], 0, [], 0, None;
      text, at := [], 0;
    }

    method Reset(v: Text)
      modifies this
      ensures Valid() && Abstract() == Field(v, |v|, [], 0, None)
    {
      value := Utf8(v);
      cursor := |value|;
      suggestions, suggestionIndex, error := [], 0, None;
      text, at := v, |v|;
      EndsEncode(v);
    }

    method Insert(c: Scalar)
      requires Valid()
      modifies this
      ensures Valid() && Abstract() == Edited(old(Abstract()), Edit.Insert(c))
    {
      InsertedEncodes(value, cursor, text, at, c);
      value := value[..cursor] + Encode(c) + value[cursor..];
      cursor := cursor + |Encode(c)|;
      error := None;
      text, at := text[..at] + [c] + text[at..], at + 1;
    }

    method MoveLeft()
      requires Valid()
      modifies this`cursor, this`at
      ensures Valid() && Abstract() == Edited(old(Abstract()), Edit.MoveLeft)
    {
      EncodingsAreCharacters(text);
      PreviousIsOneBack(Encodings(text), at);
      cursor := PreviousBoundary(value, cursor);
      at := if at == 0 then 0 else at - 1;
    }

    method MoveRight()
      requires Valid()
      modifies this`cursor, this`at
      ensures Valid() && Abstract() == Edited(old(Abstract()), Edit.MoveRight)
    {
      EncodingsAreCharacters(text);
      NextIsOneOn(Encodings(text), at);
      cursor := NextBoundary(value, cursor);
      at := if at == |text| then at else at + 1;
    }

    method Backspace()
      requires Valid()
      modifies this
      ensures Valid() && Abstract() == Edited(old(Abstract()), Edit.Backspace)
    {
      EncodingsAreCharacters(text);
      PreviousIsOneBack(Encodings(text), at);
      var previous := PreviousBoundary(value, cursor);
      if at > 0 { OffsetsIncrease(Encodings(text), at - 1, at); }
      if previous != cursor {
        Drain(previous, cursor, at - 1, at);
      }
    }

    method Delete()
      requires Valid()
      modifies this
      ensures Valid() && Abstract() == Edited(old(Abstract()), Edit.Delete)
    {
      EncodingsAreCharacters(text);
      NextIsOneOn(Encodings(text), at);
      var next := NextBoundary(value, cursor);
      if at < |text| { OffsetsIncrease(Encodings(text), at, at + 1); }
      if next != cursor {
        Drain(cursor, next, at, at + 1);
      }
    }

    // Removes the bytes between two characters and leaves the cursor there.
    method Drain(low: nat, high: nat, ghost from: nat, ghost to: nat)
      requires from <= to && Encodes(value, low, text, from) && Encodes(value, high, text, to)
      modifies this
      ensures Valid() && Abstract() == Spliced(old(Abstract()), from, to, [])
    {
      ghost var after := Spliced(Abstract(), from, to, []);
      DrainedEncodes(value, low, high, Abstract(), from, to);
      value := value[..low] + value[high..];
      cursor := low;
      error := None;
      text, at := after.text, after.at;
    }

    method DeletePreviousWord()
      requires Valid()
      modifies this
      ensures Valid() && Abstract() == WithoutPreviousWord(old(Abstract()))
    {
      var start, k := WordStart();
      Drain(start, cursor, k, at);
    }

    method WordStart() returns (start: nat, ghost k: nat)
      requires Valid()
      ensures k == BeforeWord(text, BeforeSpaces(text, at)) && Encodes(value, start, text, k)
    {
      start, k := cursor, at;
      while start > 0
        invariant k <= at && Encodes(value, start, text, k)
        invariant BeforeSpaces(text, k) == BeforeSpaces(text, at)
        invariant start == 0 ==> k == 0
        decreases start
      {
        var previous, whitespace := Look(start, k);
        if !whitespace {
          break;
        }
        start, k := previous, k - 1;
      }
      while start > 0
        invariant k <= at && Encodes(value, start, text, k)
        invariant BeforeWord(text, k) == BeforeWord(text, BeforeSpaces(text, at))
        invariant start == 0 ==> k == 0
        decreases start
      {
        var previous, whitespace := Look(start, k);
        if whitespace {
          break;
        }
        start, k := previous, k - 1;
      }
    }

    // The character before an offset.
    method Look(start: nat, ghost k: nat) returns (previous: nat, whitespace: bool)
      requires Encodes(value, start, text, k) && 0 < start
      ensures k > 0 && Encodes(value, previous, text, k - 1) && previous < start
      ensures whitespace == Whitespace(text[k - 1])
      ensures previous == 0 ==> k == 1
    {
      ghost var chunks := Encodings(text);
      Ends(chunks);
      EncodingsAreCharacters(text);
      PreviousIsOneBack(chunks, k);
      CharacterAt(chunks, k - 1);
      DecodeEncode(text[k - 1]);
      OffsetsIncrease(chunks, 0, k - 1);
      previous := PreviousBoundary(value, start);
      var character := DecodeFirst(value[previous..start]);
      whitespace := Whitespace(character);
    }

    method KillBefore()
      requires Valid()
      modifies this
      ensures Valid() && Abstract() == Spliced(old(Abstract()), 0, old(at), [])
    {
      EndsEncode(text);
      Drain(0, cursor, 0, at);
    }

    method KillAfter()
      requires Valid()
      modifies this
      ensures Valid() && Abstract() == Spliced(old(Abstract()), old(at), |old(text)|, [])
    {
      EndsEncode(text);
      Drain(cursor, |value|, at, |text|);
    }

    method NextSuggestion()
      requires Valid()
      modifies this`suggestionIndex
      ensures Valid() && Abstract() == Edited(old(Abstract()), Edit.NextSuggestion)
    {
      if suggestions != [] {
        suggestionIndex := (suggestionIndex + 1) % |suggestions|;
      }
    }

    method PreviousSuggestion()
      requires Valid()
      modifies this`suggestionIndex
      ensures Valid() && Abstract() == Edited(old(Abstract()), Edit.PreviousSuggestion)
    {
      if suggestions != [] {
        suggestionIndex := (suggestionIndex + |suggestions| - 1) % |suggestions|;
      }
    }

    method AcceptSuggestion()
      requires Valid()
      modifies this
      ensures Valid() && Abstract() == Edited(old(Abstract()), Edit.AcceptSuggestion)
    {
      if suggestionIndex < |suggestions| {
        var accepted := suggestions[suggestionIndex].value;
        value := Utf8(accepted);
        cursor := |value|;
        text, at := accepted, |accepted|;
        EndsEncode(accepted);
        error := None;
      }
    }

    method Jump(end: bool)
      requires Valid()
      modifies this`cursor, this`at
      ensures Valid() && Abstract() == Edited(old(Abstract()), if end then End else Home)
    {
      EndsEncode(text);
      if end {
        cursor, at := |value|, |text|;
      } else {
        cursor, at := 0, 0;
      }
    }

    method PerformOne(e: Edit)
      requires Valid()
      modifies this
      ensures Valid() && Abstract() == Edited(old(Abstract()), e)
    {
      match e
      case Insert(c) => Insert(c);
      case MoveLeft => MoveLeft();
      case MoveRight => MoveRight();
      case Backspace => Backspace();
      case Delete => Delete();
      case DeletePreviousWord => DeletePreviousWord();
      case KillBefore => KillBefore();
      case KillAfter => KillAfter();
      case Reset(v) => Reset(v);
      case NextSuggestion => NextSuggestion();
      case PreviousSuggestion => PreviousSuggestion();
      case AcceptSuggestion => AcceptSuggestion();
      case Home => Jump(false);
      case End => Jump(true);
      case Suggest(found) => suggestions, suggestionIndex := found, 0;
      case Reject(message) => error := Some(message);
    }

    // Whatever sequence of edits the keys ask for, the bytes follow the characters
    // and the cursor is on a boundary.
    method Perform(es: seq<Edit>)
      requires Valid()
      modifies this
      ensures Valid() && Abstract() == AllEdited(old(Abstract()), es)
      ensures Boundary(value, cursor)
    {
      for n := 0 to |es|
        invariant Valid() && Abstract() == AllEdited(old(Abstract()), es[..n])
      {
        assert es[..n + 1][..n] == es[..n];
        PerformOne(es[n]);
      }
      assert es[..|es|] == es;
      EncodingsAreCharacters(text);
      BoundaryIffOffset(Encodings(text), cursor);
    }
  }
}
