/**
 * The format checks of the Validacion class: each pattern is matched against
 * the whole string, with Java's default (ASCII) character classes.
 */
module Validation {
  import opened Outcomes
  import opened Seqs
  import opened Decimal

  /** [0-9] */
  predicate IsDigit(c: char) { '0' <= c <= '9' }

  /** [a-zA-Z] */
  predicate IsLetter(c: char) { 'a' <= c <= 'z' || 'A' <= c <= 'Z' }

  /** [\w.-], where \w is [a-zA-Z_0-9] */
  predicate IsEmailChar(c: char) { IsLetter(c) || IsDigit(c) || c == '_' || c == '.' || c == '-' }

  predicate AllDigits(s: string) { forall k :: 0 <= k < |s| ==> IsDigit(s[k]) }

  predicate AllLetters(s: string) { forall k :: 0 <= k < |s| ==> IsLetter(s[k]) }

  predicate AllEmailChars(s: string) { forall k :: 0 <= k < |s| ==> IsEmailChar(s[k]) }

  /** validarPin: the pattern ^[0-9]{6}$. A PIN is never a phone number nor an e-mail address. */
  predicate ValidPin(s: string)
    ensures ValidPin(s) ==> !ValidPhone(s) && !ValidEmail(s)
  {
    |s| == 6 && AllDigits(s)
  }

  /** validarTelefono: the pattern ^[0-9]{8}$. A phone number is never an e-mail address. */
  predicate ValidPhone(s: string)
    ensures ValidPhone(s) ==> !ValidEmail(s)
  {
    |s| == 8 && AllDigits(s)
  }

  /**
   * One way of reading the part after the `@` as [\w.-]+\.[a-zA-Z]{2,}: the dot
   * before the top-level domain stands at index `dot`.
   */
  predicate DomainSplit(d: string, dot: int) {
    && 1 <= dot && dot + 3 <= |d| && d[dot] == '.'
    && AllEmailChars(d[..dot]) && AllLetters(d[dot + 1..])
  }

  /**
   * One way of reading `s` as the pattern ^[\w.-]+@[\w.-]+\.[a-zA-Z]{2,}$: the
   * `@` stands at index `at`, and `dot` is counted from just after it.
   */
  predicate EmailSplit(s: string, at: int, dot: int) {
    && 1 <= at < |s| && s[at] == '@'
    && AllEmailChars(s[..at]) && DomainSplit(s[at + 1..], dot)
  }

  /** The regular-expression meaning of the e-mail pattern: some split matches. */
  ghost predicate MatchesEmailPattern(s: string) {
    exists at, dot :: EmailSplit(s, at, dot)
  }

  /** The part after the `@`: [\w.-]+\.[a-zA-Z]{2,}, decided at the last dot. */
  predicate ValidDomain(d: string) {
    match LastIndex(d, '.')
    case None => false
    case Some(dot) =>
      1 <= dot && dot + 3 <= |d| && AllEmailChars(d[..dot]) && AllLetters(d[dot + 1..])
  }

  /**
   * validarEmail and validarCorreo (both match the one pattern), decided at
   * the first `@` and the last dot after it: an accepted address matches the
   * pattern split there.
   */
  predicate ValidEmail(s: string)
    ensures ValidEmail(s) ==>
      && FirstIndex(s, '@').Some?
      && LastIndex(s[FirstIndex(s, '@').value + 1..], '.').Some?
      && EmailSplit(s, FirstIndex(s, '@').value, LastIndex(s[FirstIndex(s, '@').value + 1..], '.').value)
  {
    var first := FirstIndex(s, '@');
    first.Some? && 1 <= first.value && AllEmailChars(s[..first.value]) && ValidDomain(s[first.value + 1..])
  }

  /** No `@` is an e-mail character. */
  lemma NoAtIn(t: string)
    requires AllEmailChars(t)
    ensures '@' !in t
  {
  }

  /** No dot is a letter. */
  lemma NoDotIn(t: string)
    requires AllLetters(t)
    ensures '.' !in t
  {
  }

  /** Every match of the pattern splits at the first `@` and the last dot. */
  lemma MatchIsValidEmail(s: string, at: int, dot: int)
    requires EmailSplit(s, at, dot)
    ensures ValidEmail(s)
  {
    NoAtIn(s[..at]);
    FirstIndexAt(s, '@', at);
    var d := s[at + 1..];
    DomainAtLastDot(d, dot);
    ValidEmailAt(s, at);
  }

  /** Once the first `@` is known, ValidEmail is a condition on the two parts around it. */
  lemma ValidEmailAt(s: string, at: nat)
    requires FirstIndex(s, '@') == Some(at)
    ensures ValidEmail(s) <==> 1 <= at && AllEmailChars(s[..at]) && ValidDomain(s[at + 1..])
  {
  }

  /** A split of the domain is at its last dot, so the domain is accepted. */
  lemma DomainAtLastDot(d: string, dot: int)
    requires DomainSplit(d, dot)
    ensures LastIndex(d, '.') == Some(dot)
    ensures ValidDomain(d)
  {
    NoDotIn(d[dot + 1..]);
    LastIndexAt(d, '.', dot);
  }

  /** Deciding at the first `@` and the last dot accepts exactly what the pattern matches. */
  lemma ValidEmailIsPattern(s: string)
    ensures ValidEmail(s) <==> MatchesEmailPattern(s)
  {
    if MatchesEmailPattern(s) {
      var at, dot :| EmailSplit(s, at, dot);
      MatchIsValidEmail(s, at, dot);
    }
  }

  /** The part after the `@` holds no other `@`. */
  lemma DomainHasNoAt(d: string, dot: int)
    requires DomainSplit(d, dot)
    ensures '@' !in d
  {
    var tld := d[dot + 1..];
    assert d == d[..dot] + ['.'] + tld;
    NoAtIn(d[..dot]);
    assert forall k :: 0 <= k < |tld| ==> tld[k] != '@' by {
      assert forall k :: 0 <= k < |tld| ==> IsLetter(tld[k]);
    }
  }

  /** An accepted address holds exactly one `@`. */
  lemma ValidEmailHasOneAt(s: string)
    requires ValidEmail(s)
    ensures multiset(s)['@'] == 1
  {
    var at := FirstIndex(s, '@').value;
    DomainHasNoAt(s[at + 1..], LastIndex(s[at + 1..], '.').value);
    OnlyOccurrence(s, '@', at);
  }

  /**
   * generarPinToken: the decimal texts of two numbers in 10..99 (drawn at random
   * in the source) put side by side. The token is four digits long, so the PIN
   * check always rejects it.
   */
  function PinToken(first: int, second: int): (t: string)
    requires 10 <= first <= 99 && 10 <= second <= 99
    ensures |t| == 4 && AllDigits(t)
    ensures !ValidPin(t)
  {
    TwoDigitLength(first);
    TwoDigitLength(second);
    NatToString(first) + NatToString(second)
  }
}
