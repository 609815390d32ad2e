/** The emotion vector of the upload endpoint: a form field holding eight
    comma-separated numbers (happy, angry, sad, afraid, disgusted,
    melancholic, surprised, calm). The field is split on ",", every part is
    stripped of surrounding whitespace and converted with float(), and the
    list is accepted only when it has exactly eight values.
    float() itself is not modelled: it is the parameter `parseFloat`, which
    either yields a value or fails (float() raising ValueError). */
module EmoVector {
  import opened Outcomes

  /** The number of emotion categories. */
  const Dimensions: nat := 8

  /** str.split(sep) with an explicit one-character separator. */
  function Split(s: string, sep: char): (parts: seq<string>)
    ensures |parts| >= 1
    decreases |s|
  {
    if s == [] then [""]
    else
      var rest := Split(s[1..], sep);
      if s[0] == sep then [""] + rest
      else [[s[0]] + rest[0]] + rest[1..]
  }

  /** sep.join(parts), the inverse of Split. */
  function JoinWith(parts: seq<string>, sep: char): string
    requires |parts| >= 1
    decreases |parts|
  {
    if |parts| == 1 then parts[0] else parts[0] + [sep] + JoinWith(parts[1..], sep)
  }

  /** The number of times c occurs in s. */
  function Occurrences(s: string, c: char): nat
    decreases |s|
  {
    if s == [] then 0 else (if s[0] == c then 1 else 0) + Occurrences(s[1..], c)
  }

  /** Splitting yields one more part than there are separators, and no
      part contains the separator. */
  lemma {:induction false} SplitShape(s: string, sep: char)
    ensures |Split(s, sep)| == Occurrences(s, sep) + 1
    ensures forall i :: 0 <= i < |Split(s, sep)| ==> sep !in Split(s, sep)[i]
    decreases |s|
  {
    if s != [] {
      SplitShape(s[1..], sep);
    }
  }

  /** Joining the parts again gives back the field. */
  lemma {:induction false} JoinSplit(s: string, sep: char)
    ensures JoinWith(Split(s, sep), sep) == s
    decreases |s|
  {
    if s != [] {
      var rest := Split(s[1..], sep);
      JoinSplit(s[1..], sep);
      if s[0] == sep {
        assert Split(s, sep)[1..] == rest;
      } else if |rest| == 1 {
        assert s == [s[0]] + s[1..];
      } else {
        assert Split(s, sep)[1..] == rest[1..];
        assert s == [s[0]] + s[1..];
      }
    }
  }

  /** A text without separators splits into itself. */
  lemma {:induction false} SplitWithoutSeparator(a: string, sep: char)
    requires sep !in a
    ensures Split(a, sep) == [a]
    decreases |a|
  {
    if a != [] {
      SplitWithoutSeparator(a[1..], sep);
      assert a == [a[0]] + a[1..];
    }
  }

  /** A separator after a separator-free prefix ends the first part. */
  lemma {:induction false} SplitAfterPrefix(a: string, b: string, sep: char)
    requires sep !in a
    ensures Split(a + [sep] + b, sep) == [a] + Split(b, sep)
    decreases |a|
  {
    if a == [] {
      assert a + [sep] + b == [sep] + b;
      assert ([sep] + b)[1..] == b;
    } else {
      SplitAfterPrefix(a[1..], b, sep);
      assert (a + [sep] + b)[1..] == a[1..] + [sep] + b;
      assert a == [a[0]] + a[1..];
    }
  }

  /** Splitting a join of separator-free parts gives back the parts. */
  lemma {:induction false} SplitJoin(parts: seq<string>, sep: char)
    requires |parts| >= 1
    requires forall i :: 0 <= i < |parts| ==> sep !in parts[i]
    ensures Split(JoinWith(parts, sep), sep) == parts
    decreases |parts|
  {
    if |parts| == 1 {
      SplitWithoutSeparator(parts[0], sep);
    } else {
      SplitJoin(parts[1..], sep);
      SplitAfterPrefix(parts[0], JoinWith(parts[1..], sep), sep);
    }
  }

  /** The characters str.strip() removes (Python's whitespace). */
  predicate IsSpace(c: char) {
    || c == ' ' || '\t' <= c <= '\r' || '\U{1C}' <= c <= '\U{1F}'
    || c == '\U{85}' || c == '\U{A0}' || c == '\U{1680}' || '\U{2000}' <= c <= '\U{200A}'
    || c == '\U{2028}' || c == '\U{2029}' || c == '\U{202F}' || c == '\U{205F}' || c == '\U{3000}'
  }

  /** str.lstrip(). */
  function StripLeft(s: string): string
    decreases |s|
  {
    if s != [] && IsSpace(s[0]) then StripLeft(s[1..]) else s
  }

  /** str.rstrip(). */
  function StripRight(s: string): string
    decreases |s|
  {
    if s != [] && IsSpace(s[|s| - 1]) then StripRight(s[..|s| - 1]) else s
  }

  /** str.strip(). */
  function Strip(s: string): string {
    StripRight(StripLeft(s))
  }

  /** lstrip removes exactly the leading whitespace: what remains is a
      suffix that does not start with whitespace, and all it dropped was
      whitespace. */
  lemma {:induction false} StripLeftMeaning(s: string)
    ensures |StripLeft(s)| <= |s| && StripLeft(s) == s[|s| - |StripLeft(s)|..]
    ensures StripLeft(s) == [] || !IsSpace(StripLeft(s)[0])
    ensures forall i :: 0 <= i < |s| - |StripLeft(s)| ==> IsSpace(s[i])
    decreases |s|
  {
    if s != [] && IsSpace(s[0]) {
      StripLeftMeaning(s[1..]);
    }
  }

  /** rstrip removes exactly the trailing whitespace. */
  lemma {:induction false} StripRightMeaning(s: string)
    ensures |StripRight(s)| <= |s| && StripRight(s) == s[..|StripRight(s)|]
    ensures StripRight(s) == [] || !IsSpace(StripRight(s)[|StripRight(s)| - 1])
    ensures forall i :: |StripRight(s)| <= i < |s| ==> IsSpace(s[i])
    decreases |s|
  {
    if s != [] && IsSpace(s[|s| - 1]) {
      StripRightMeaning(s[..|s| - 1]);
    }
  }

  /** strip keeps a contiguous middle of s that neither starts nor ends
      with whitespace, and drops only whitespace around it. */
  lemma StripMeaning(s: string)
    ensures exists lo, hi ::
              && 0 <= lo <= hi <= |s| && Strip(s) == s[lo..hi]
              && (forall i :: 0 <= i < lo ==> IsSpace(s[i]))
              && (forall i :: hi <= i < |s| ==> IsSpace(s[i]))
    ensures Strip(s) == [] || (!IsSpace(Strip(s)[0]) && !IsSpace(Strip(s)[|Strip(s)| - 1]))
  {
    var l := StripLeft(s);
    StripLeftMeaning(s);
    StripRightMeaning(l);
    var lo := |s| - |l|;
    var hi := lo + |Strip(s)|;
    assert Strip(s) == s[lo..hi];
    if Strip(s) != [] {
      assert Strip(s)[0] == l[0];
    }
  }

  /** Converting the parts one after another, as the list comprehension
      does: either every part converts, or the first part that does not. */
  datatype Conversion = Converted(values: seq<real>) | FailedAt(index: nat)

  function ConvertParts(parts: seq<string>, parseFloat: string -> Option<real>): (c: Conversion)
    ensures c.Converted? ==> |c.values| == |parts|
    ensures c.FailedAt? ==> c.index < |parts|
    decreases |parts|
  {
    if parts == [] then Converted([])
    else match parseFloat(Strip(parts[0]))
      case None => FailedAt(0)
      case Some(v) =>
        match ConvertParts(parts[1..], parseFloat)
        case Converted(vs) => Converted([v] + vs)
        case FailedAt(k) => FailedAt(k + 1)
  }

  /** Every value is float() of its stripped part, in order; a failure
      names the first part that float() rejects. */
  lemma {:induction false} ConvertPartsMeaning(parts: seq<string>, parseFloat: string -> Option<real>)
    ensures ConvertParts(parts, parseFloat).Converted? ==>
      |ConvertParts(parts, parseFloat).values| == |parts| &&
      forall i :: 0 <= i < |parts| ==> parseFloat(Strip(parts[i])) == Some(ConvertParts(parts, parseFloat).values[i])
    ensures ConvertParts(parts, parseFloat).FailedAt? ==>
      ConvertParts(parts, parseFloat).index < |parts| &&
      parseFloat(Strip(parts[ConvertParts(parts, parseFloat).index])).None? &&
      forall i :: 0 <= i < ConvertParts(parts, parseFloat).index ==> parseFloat(Strip(parts[i])).Some?
    decreases |parts|
  {
    if parts != [] {
      match parseFloat(Strip(parts[0]))
      case None =>
      case Some(v) =>
        var tail := parts[1..];
        ConvertPartsMeaning(tail, parseFloat);
        var rest := ConvertParts(tail, parseFloat);
        assert ConvertParts(parts, parseFloat) ==
          (if rest.Converted? then Converted([v] + rest.values) else FailedAt(rest.index + 1));
        forall i | 1 <= i < |parts| ensures parts[i] == tail[i - 1] { }
    }
  }

  /** Why a non-empty field was refused: a part float() rejects (the
      first, in order), or a number of values other than eight. */
  datatype VectorError = BadComponent(index: nat) | WrongCount(count: nat)

  datatype VectorParse = NoVector | Vector(values: seq<real>) | Malformed(error: VectorError)

  /** The `emo_vector` form field as the upload endpoint reads it. An absent
      or empty field means no vector. Otherwise every part must convert and
      there must be exactly eight of them, that is exactly seven commas. */
  function ParseEmoVector(field: Option<string>, parseFloat: string -> Option<real>): (r: VectorParse)
    ensures r.NoVector? <==> field.None? || field.value == ""
    ensures r.Vector? ==> |r.values| == Dimensions && Occurrences(field.value, ',') == Dimensions - 1
    ensures r.Vector? ==> |Split(field.value, ',')| == Dimensions
    ensures r.Vector? ==> forall i :: 0 <= i < Dimensions ==>
      parseFloat(Strip(Split(field.value, ',')[i])) == Some(r.values[i])
    ensures r.Vector? <==>
      field.Some? && field.value != "" && Occurrences(field.value, ',') == Dimensions - 1 &&
      forall i :: 0 <= i < |Split(field.value, ',')| ==> parseFloat(Strip(Split(field.value, ',')[i])).Some?
    ensures r.Malformed? && r.error.WrongCount? ==>
      r.error.count != Dimensions && r.error.count == Occurrences(field.value, ',') + 1
    // the parts are converted before they are counted: a part float() rejects
    // is reported, the first one, whatever the count
    ensures r.Malformed? ==>
      (r.error.BadComponent? <==>
         exists i :: 0 <= i < |Split(field.value, ',')| && parseFloat(Strip(Split(field.value, ',')[i])).None?)
    ensures r.Malformed? && r.error.BadComponent? ==>
      && r.error.index < |Split(field.value, ',')|
      && parseFloat(Strip(Split(field.value, ',')[r.error.index])).None?
      && forall i :: 0 <= i < r.error.index ==> parseFloat(Strip(Split(field.value, ',')[i])).Some?
  {
    match field
    case None => NoVector
    case Some(text) =>
      if text == "" then NoVector
      else
        var parts := Split(text, ',');
        SplitShape(text, ',');
        ConvertPartsMeaning(parts, parseFloat);
        match ConvertParts(parts, parseFloat)
        case FailedAt(k) => Malformed(BadComponent(k))
        case Converted(values) =>
          if |values| != Dimensions then Malformed(WrongCount(|values|)) else Vector(values)
  }
}
