/** The validated display name of a subscriber (src/domain/subscriber_name.rs). */
module SubscriberNames {
  import opened Wrappers

  /** Only `Parse` builds one, so every value holds a valid name. */
  datatype SubscriberName = SubscriberName(value: string)

  /** `AsRef<str>`: the wrapped string, which parses back to the same name when it is valid. */
  function AsRef(name: SubscriberName): (s: string)
    ensures IsValidName(s) ==> Parse(s) == Ok(name)
  {
    name.value
  }

  /** Rust's `char::is_whitespace`: the Unicode White_Space property. */
  predicate IsWhitespace(c: char) {
    || '\U{0009}' <= c <= '\U{000D}'
    || c == ' ' || c == '\U{0085}' || c == '\U{00A0}' || c == '\U{1680}'
    || '\U{2000}' <= c <= '\U{200A}'
    || c == '\U{2028}' || c == '\U{2029}' || c == '\U{202F}' || c == '\U{205F}' || c == '\U{3000}'
  }

  /** `str::trim_start`: what is left after the leading whitespace. */
  function TrimStart(s: string): (r: string)
    ensures |r| <= |s| && r == s[|s| - |r|..]
    ensures forall i :: 0 <= i < |s| - |r| ==> IsWhitespace(s[i])
    ensures r != [] ==> !IsWhitespace(r[0])
  {
    if s != [] && IsWhitespace(s[0]) then TrimStart(s[1..]) else s
  }

  /** `str::trim_end`: what is left before the trailing whitespace. */
  function TrimEnd(s: string): (r: string)
    ensures |r| <= |s| && r == s[..|r|]
    ensures forall i :: |r| <= i < |s| ==> IsWhitespace(s[i])
    ensures r != [] ==> !IsWhitespace(r[|r| - 1])
  {
    if s != [] && IsWhitespace(s[|s| - 1]) then TrimEnd(s[..|s| - 1]) else s
  }

  /** `str::trim`. */
  function Trim(s: string): string {
    TrimEnd(TrimStart(s))
  }

  /** Nothing is left after trimming exactly when every character is whitespace. */
  lemma TrimIsEmptyIffBlank(s: string)
    ensures Trim(s) == [] <==> forall i :: 0 <= i < |s| ==> IsWhitespace(s[i])
  {
    var t := TrimStart(s);
    if t != [] {
      assert !IsWhitespace(t[0]);
      assert !IsWhitespace(s[|s| - |t|]);
    }
  }

  /**
   * The number of extended grapheme clusters. Unicode segmentation is not part
   * of this model: every character counts as one grapheme, which is exact for
   * text without combining sequences.
   */
  function GraphemeCount(s: string): nat {
    |s|
  }

  const MaxGraphemes := 256

  const ForbiddenCharacters: seq<char> := ['/', '(', ')', '"', '<', '>', '\\', '{', '}']

  /** `s.chars().any(|g| forbidden_characters.contains(&g))`. */
  function ContainsForbidden(s: string): (r: bool)
    ensures r <==> exists i :: 0 <= i < |s| && s[i] in ForbiddenCharacters
  {
    if s == [] then false
    else if s[0] in ForbiddenCharacters then true
    else
      var rest := ContainsForbidden(s[1..]);
      assert forall i :: 1 <= i < |s| ==> s[i] == s[1..][i - 1];
      rest
  }

  /** What a valid subscriber name is, stated character by character. */
  predicate IsValidName(s: string) {
    && (exists i :: 0 <= i < |s| && !IsWhitespace(s[i]))
    && |s| <= MaxGraphemes
    && (forall i :: 0 <= i < |s| ==> s[i] !in ForbiddenCharacters)
  }

  const InvalidNameSuffix := " is not a valid subscriber name."

  /**
   * `SubscriberName::parse`: reject a blank name, a name of more than 256
   * graphemes and a name with one of the forbidden characters.
   */
  function Parse(s: string): (r: Result<SubscriberName, string>)
    ensures r.Ok? <==> IsValidName(s)
    ensures r.Ok? ==> r.value == SubscriberName(s)
    ensures r.Err? ==> r.error == s + InvalidNameSuffix
  {
    TrimIsEmptyIffBlank(s);
    var isEmptyOrWhitespace := Trim(s) == [];
    var isTooLong := GraphemeCount(s) > MaxGraphemes;
    var containsForbiddenCharacters := ContainsForbidden(s);
    if isEmptyOrWhitespace || isTooLong || containsForbiddenCharacters then
      Err(s + InvalidNameSuffix)
    else
      Ok(SubscriberName(s))
  }

  /** A name of exactly 256 graphemes is accepted; one of 257 is not. */
  lemma LengthLimitExamples()
    ensures Parse(seq(256, _ => 'a')).Ok?
    ensures Parse(seq(257, _ => 'a')).Err?
  {
    var a256: string := seq(256, _ => 'a');
    assert !IsWhitespace(a256[0]);
  }

  /** Empty and whitespace-only names are rejected. */
  lemma BlankExamples()
    ensures Parse(" ").Err? && Parse("").Err?
  {
  }

  /** Each forbidden character on its own is rejected. */
  lemma ForbiddenExamples()
    ensures forall c | c in ForbiddenCharacters :: Parse([c]).Err?
  {
    forall c | c in ForbiddenCharacters ensures Parse([c]).Err? {
      assert [c][0] in ForbiddenCharacters;
    }
  }

  /** A name of letters and spaces that is not blank is accepted. */
  lemma LettersAndSpacesAreValid(s: string)
    requires (exists i :: 0 <= i < |s| && s[i] != ' ') && |s| <= MaxGraphemes
    requires forall i :: 0 <= i < |s| ==> s[i] == ' ' || 'A' <= s[i] <= 'Z' || 'a' <= s[i] <= 'z'
    ensures Parse(s).Ok?
  {
    var k :| 0 <= k < |s| && s[k] != ' ';
    assert !IsWhitespace(s[k]);
    assert forall i :: 0 <= i < |s| ==> s[i] !in ForbiddenCharacters;
  }

  lemma ValidNameExample()
    ensures Parse("Ursula Le Guin").Ok?
  {
    assert "Ursula Le Guin"[0] != ' ';
    LettersAndSpacesAreValid("Ursula Le Guin");
  }
}
