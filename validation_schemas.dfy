/** The participant and score schemas. Each schema is a list of checks run
    in declaration order; every failing check adds one issue (message) and
    no check stops the ones after it, so a rejected value carries one or
    more issues, the first of which is what callers show. */
module ValidationSchemas {
  import opened JsString

  const NOME_MAX: nat := 100
  const COSPLAY_MAX: nat := 200

  const NOME_REQUIRED := "Nome é obrigatório"
  const NOME_TOO_LONG := "Nome deve ter " + "no máximo 100 caracteres"
  const NOME_INVALID_CHARS := "Nome contém " + "caracteres inválidos"
  const CATEGORIA_INVALID := "Categoria inválida"
  const COSPLAY_REQUIRED := "Nome do cosplay/" + "personagem é obrigatório"
  const COSPLAY_TOO_LONG := "Nome do cosplay " + "deve ter no máximo " + "200 caracteres"
  const COSPLAY_INVALID_CHARS := "Nome do cosplay " + "contém caracteres inválidos"

  /** A participant record: its input and, after a successful parse, its output. */
  datatype Participant = Participant(nome: string, categoria: string, cosplay: string)

  /** A schema's verdict: the parsed value, or the issues in the order found. */
  datatype Parsed<T> = Success(value: T) | Failure(issues: seq<string>)

  /** The class `[a-zA-ZÀ-ÿ0-9\s\-'".]` of the `nome` pattern. */
  predicate IsNomeChar(c: char) {
    || 'a' <= c <= 'z' || 'A' <= c <= 'Z'
    || ('\U{00C0}' <= c <= '\U{00FF}')
    || '0' <= c <= '9'
    || IsWhitespace(c)
    || c == '-' || c == '\'' || c == '"' || c == '.'
  }

  /** The class of the `cosplay` pattern: the `nome` class plus `,:;!?()&/`. */
  predicate IsCosplayChar(c: char) {
    || IsNomeChar(c)
    || c == ',' || c == ':' || c == ';' || c == '!' || c == '?'
    || c == '(' || c == ')' || c == '&' || c == '/'
  }

  /** `^[…]+$` for the `nome` class. */
  predicate MatchesNomePattern(s: string) {
    |s| >= 1 && forall i :: 0 <= i < |s| ==> IsNomeChar(s[i])
  }

  predicate MatchesCosplayPattern(s: string) {
    |s| >= 1 && forall i :: 0 <= i < |s| ==> IsCosplayChar(s[i])
  }

  /** An already trimmed `nome` the schema accepts. */
  predicate ValidNome(t: string) {
    1 <= Utf16Length(t) <= NOME_MAX && MatchesNomePattern(t)
  }

  /** An already trimmed `cosplay` the schema accepts. */
  predicate ValidCosplay(t: string) {
    1 <= Utf16Length(t) <= COSPLAY_MAX && MatchesCosplayPattern(t)
  }

  /** `z.string().trim().min(1).max(100).regex(…)` on `nome`. */
  function NomeIssues(nome: string): seq<string> {
    var t := Trim(nome);
    (if Utf16Length(t) < 1 then [NOME_REQUIRED] else [])
    + (if Utf16Length(t) > NOME_MAX then [NOME_TOO_LONG] else [])
    + (if !MatchesNomePattern(t) then [NOME_INVALID_CHARS] else [])
  }

  /** `z.enum(CATEGORIES)` with one message for every failure. */
  function CategoriaIssues(categoria: string, categories: set<string>): seq<string> {
    if categoria in categories then [] else [CATEGORIA_INVALID]
  }

  /** `z.string().trim().min(1).max(200).regex(…)` on `cosplay`. */
  function CosplayIssues(cosplay: string): seq<string> {
    var t := Trim(cosplay);
    (if Utf16Length(t) < 1 then [COSPLAY_REQUIRED] else [])
    + (if Utf16Length(t) > COSPLAY_MAX then [COSPLAY_TOO_LONG] else [])
    + (if !MatchesCosplayPattern(t) then [COSPLAY_INVALID_CHARS] else [])
  }

  /** All issues of `participantSchema`, field by field in declaration order. */
  function ParticipantIssues(p: Participant, categories: set<string>): seq<string> {
    NomeIssues(p.nome) + CategoriaIssues(p.categoria, categories) + CosplayIssues(p.cosplay)
  }

  /** The record a successful parse yields: both text fields trimmed, the
      category as given. */
  function Normalised(p: Participant): Participant {
    Participant(Trim(p.nome), p.categoria, Trim(p.cosplay))
  }

  /** `participantSchema.parse`, with `CATEGORIES` passed in as `categories`.
      It succeeds exactly when the trimmed `nome` and `cosplay` satisfy their
      length bounds and character classes and the category is one of
      `categories` verbatim (no trimming, no case folding). */
  function ParseParticipant(p: Participant, categories: set<string>): (r: Parsed<Participant>)
    ensures r.Success? ==> r.value == Participant(Trim(p.nome), p.categoria, Trim(p.cosplay))
    ensures r.Failure? ==> |r.issues| >= 1 && r.issues == ParticipantIssues(p, categories)
  {
    var issues := ParticipantIssues(p, categories);
    if issues == [] then Success(Normalised(p)) else Failure(issues)
  }

  /** The parse succeeds exactly when every field rule holds. */
  lemma ParseAcceptsExactly(p: Participant, categories: set<string>)
    ensures ParseParticipant(p, categories).Success? <==>
      ValidNome(Trim(p.nome)) && p.categoria in categories && ValidCosplay(Trim(p.cosplay))
  {
    NomeIssuesEmptyIff(p.nome);
    CosplayIssuesEmptyIff(p.cosplay);
    assert |ParticipantIssues(p, categories)| == |NomeIssues(p.nome)|
      + |CategoriaIssues(p.categoria, categories)| + |CosplayIssues(p.cosplay)|;
  }

  lemma NomeIssuesEmptyIff(nome: string)
    ensures NomeIssues(nome) == [] <==> ValidNome(Trim(nome))
  {
  }

  lemma CosplayIssuesEmptyIff(cosplay: string)
    ensures CosplayIssues(cosplay) == [] <==> ValidCosplay(Trim(cosplay))
  {
  }

  /** Parsing the output of a successful parse gives the same record back. */
  lemma ParseIdempotent(p: Participant, categories: set<string>)
    requires ParseParticipant(p, categories).Success?
    ensures ParseParticipant(ParseParticipant(p, categories).value, categories)
            == ParseParticipant(p, categories)
  {
    var q := Normalised(p);
    NormalisedIssues(p, categories);
    NormalisedFixed(p);
    assert ParseParticipant(q, categories) == Success(Normalised(q));
  }

  /** Trimming the text fields first changes none of the issues. */
  lemma NormalisedIssues(p: Participant, categories: set<string>)
    ensures ParticipantIssues(Normalised(p), categories) == ParticipantIssues(p, categories)
  {
    NomeIssuesOfTrimmed(p.nome);
    CosplayIssuesOfTrimmed(p.cosplay);
  }

  lemma NomeIssuesOfTrimmed(nome: string)
    ensures NomeIssues(Trim(nome)) == NomeIssues(nome)
  {
    TrimIdempotent(nome);
  }

  lemma CosplayIssuesOfTrimmed(cosplay: string)
    ensures CosplayIssues(Trim(cosplay)) == CosplayIssues(cosplay)
  {
    TrimIdempotent(cosplay);
  }

  lemma NormalisedFixed(p: Participant)
    ensures Normalised(Normalised(p)) == Normalised(p)
  {
    TrimIdempotent(p.nome);
    TrimIdempotent(p.cosplay);
  }

  /** The issue reported first, which is the one a caller shows: checks
      are tried field by field (nome, categoria, cosplay), and within a
      field in the order min, max, regex. */
  lemma FirstIssue(p: Participant, categories: set<string>)
    requires ParseParticipant(p, categories).Failure?
    ensures var n, c := Trim(p.nome), Trim(p.cosplay);
      ParseParticipant(p, categories).issues[0] ==
        if Utf16Length(n) < 1 then NOME_REQUIRED
        else if Utf16Length(n) > NOME_MAX then NOME_TOO_LONG
        else if !MatchesNomePattern(n) then NOME_INVALID_CHARS
        else if p.categoria !in categories then CATEGORIA_INVALID
        else if Utf16Length(c) < 1 then COSPLAY_REQUIRED
        else if Utf16Length(c) > COSPLAY_MAX then COSPLAY_TOO_LONG
        else COSPLAY_INVALID_CHARS
  {
  }

  /** A `nome` that trims to nothing is reported first as missing, because
      `min` is declared before `max` and `regex`. */
  lemma EmptyNomeReportedAsRequired(p: Participant, categories: set<string>)
    requires Trim(p.nome) == ""
    ensures ParseParticipant(p, categories).Failure?
    ensures ParseParticipant(p, categories).issues[0] == NOME_REQUIRED
  {
  }

  /** The category check is exact membership, and its only failure message is
      `Categoria inválida`. */
  lemma CategoriaExact(p: Participant, categories: set<string>)
    ensures CATEGORIA_INVALID in ParticipantIssues(p, categories) <==> p.categoria !in categories
  {
    NomeIssuesNotCategoria(p.nome);
    CosplayIssuesNotCategoria(p.cosplay);
  }

  lemma NomeIssuesNotCategoria(nome: string)
    ensures CATEGORIA_INVALID !in NomeIssues(nome)
  {
    NomeIssuesAreMessages(nome);
    assert NOME_REQUIRED[0] == 'N' && NOME_TOO_LONG[0] == 'N' && NOME_INVALID_CHARS[0] == 'N';
    NotACategoriaIssue(NomeIssues(nome), NOME_MESSAGES);
  }

  lemma CosplayIssuesNotCategoria(cosplay: string)
    ensures CATEGORIA_INVALID !in CosplayIssues(cosplay)
  {
    CosplayIssuesAreMessages(cosplay);
    assert COSPLAY_REQUIRED[0] == 'N' && COSPLAY_TOO_LONG[0] == 'N' && COSPLAY_INVALID_CHARS[0] == 'N';
    NotACategoriaIssue(CosplayIssues(cosplay), COSPLAY_MESSAGES);
  }

  /** Issues drawn from the `nome` or `cosplay` messages are never the
      category message: those all start with `N`. */
  lemma NotACategoriaIssue(issues: seq<string>, messages: seq<string>)
    requires forall i :: 0 <= i < |issues| ==> issues[i] in messages
    requires forall i :: 0 <= i < |messages| ==> |messages[i]| > 0 && messages[i][0] == 'N'
    ensures CATEGORIA_INVALID !in issues
  {
    assert CATEGORIA_INVALID[0] == 'C';
  }

  const NOME_MESSAGES: seq<string> := [NOME_REQUIRED, NOME_TOO_LONG, NOME_INVALID_CHARS]
  const COSPLAY_MESSAGES: seq<string> := [COSPLAY_REQUIRED, COSPLAY_TOO_LONG, COSPLAY_INVALID_CHARS]

  lemma FieldIssuesAreMessages(nome: string, cosplay: string)
    ensures forall i :: 0 <= i < |NomeIssues(nome)| ==> NomeIssues(nome)[i] in NOME_MESSAGES
    ensures forall i :: 0 <= i < |CosplayIssues(cosplay)| ==> CosplayIssues(cosplay)[i] in COSPLAY_MESSAGES
  {
    NomeIssuesAreMessages(nome);
    CosplayIssuesAreMessages(cosplay);
  }

  lemma NomeIssuesAreMessages(nome: string)
    ensures forall i :: 0 <= i < |NomeIssues(nome)| ==> NomeIssues(nome)[i] in NOME_MESSAGES
  {
    var n := Trim(nome);
    ChecksFromMessages(NOME_MESSAGES, Utf16Length(n) < 1, Utf16Length(n) > NOME_MAX, !MatchesNomePattern(n));
  }

  lemma CosplayIssuesAreMessages(cosplay: string)
    ensures forall i :: 0 <= i < |CosplayIssues(cosplay)| ==> CosplayIssues(cosplay)[i] in COSPLAY_MESSAGES
  {
    var c := Trim(cosplay);
    ChecksFromMessages(COSPLAY_MESSAGES, Utf16Length(c) < 1, Utf16Length(c) > COSPLAY_MAX, !MatchesCosplayPattern(c));
  }

  /** The issues of a three-check string schema are drawn from its three messages. */
  lemma ChecksFromMessages(m: seq<string>, a: bool, b: bool, c: bool)
    requires |m| == 3
    ensures var issues := (if a then [m[0]] else []) + (if b then [m[1]] else []) + (if c then [m[2]] else []);
      forall i :: 0 <= i < |issues| ==> issues[i] in m
  {
  }

  lemma MessagesSingleLine()
    ensures forall i :: 0 <= i < |NOME_MESSAGES| ==> SingleLine(NOME_MESSAGES[i])
    ensures forall i :: 0 <= i < |COSPLAY_MESSAGES| ==> SingleLine(COSPLAY_MESSAGES[i])
    ensures SingleLine(CATEGORIA_INVALID)
  {
    NomeMessagesSingleLine();
    CosplayMessagesSingleLine();
    assert SingleLine(CATEGORIA_INVALID);
  }

  lemma NomeMessagesSingleLine()
    ensures SingleLine(NOME_REQUIRED) && SingleLine(NOME_TOO_LONG) && SingleLine(NOME_INVALID_CHARS)
  {
    NomeRequiredSingleLine();
    NomeTooLongSingleLine();
    NomeInvalidSingleLine();
  }

  lemma CosplayMessagesSingleLine()
    ensures SingleLine(COSPLAY_REQUIRED) && SingleLine(COSPLAY_TOO_LONG) && SingleLine(COSPLAY_INVALID_CHARS)
  {
    CosplayRequiredSingleLine();
    CosplayTooLongSingleLine();
    CosplayInvalidSingleLine();
  }

  lemma NomeRequiredSingleLine()
    ensures SingleLine(NOME_REQUIRED)
  {
    assert SingleLine(NOME_REQUIRED);
  }

  lemma NomeTooLongSingleLine()
    ensures SingleLine(NOME_TOO_LONG)
  {
    assert SingleLine(NOME_TOO_LONG);
  }

  lemma NomeInvalidSingleLine()
    ensures SingleLine(NOME_INVALID_CHARS)
  {
    assert SingleLine(NOME_INVALID_CHARS);
  }

  lemma CosplayRequiredSingleLine()
    ensures SingleLine(COSPLAY_REQUIRED)
  {
    assert SingleLine(COSPLAY_REQUIRED);
  }

  lemma CosplayTooLongSingleLine()
    ensures SingleLine(COSPLAY_TOO_LONG)
  {
    assert SingleLine(COSPLAY_TOO_LONG);
  }

  lemma CosplayInvalidSingleLine()
    ensures SingleLine(COSPLAY_INVALID_CHARS)
  {
    assert SingleLine(COSPLAY_INVALID_CHARS);
  }

  /** No issue message spans more than one line. */
  lemma IssuesSingleLine(p: Participant, categories: set<string>)
    ensures forall i :: 0 <= i < |ParticipantIssues(p, categories)| ==>
              SingleLine(ParticipantIssues(p, categories)[i])
  {
    var ni, ki, ci := NomeIssues(p.nome), CategoriaIssues(p.categoria, categories), CosplayIssues(p.cosplay);
    var all := ParticipantIssues(p, categories);
    FieldIssuesAreMessages(p.nome, p.cosplay);
    MessagesSingleLine();
    forall i | 0 <= i < |all| ensures SingleLine(all[i]) {
      if i < |ni| {
        assert all[i] == ni[i];
      } else if i < |ni| + |ki| {
        assert all[i] == ki[i - |ni|];
      } else {
        assert all[i] == ci[i - |ni| - |ki|];
      }
    }
  }

  /** Every character allowed in `nome` is allowed in `cosplay`, so a trimmed
      string the `nome` rules accept is accepted by the `cosplay` rules. */
  lemma NomeValidImpliesCosplayValid(t: string)
    requires ValidNome(t)
    ensures ValidCosplay(t)
  {
  }

  /** Every character of the `cosplay` class, and so of the `nome` class,
      lies in the Basic Multilingual Plane: a string matching either pattern
      has JavaScript length equal to its character count. */
  lemma PatternLength(t: string)
    requires MatchesNomePattern(t) || MatchesCosplayPattern(t)
    ensures Utf16Length(t) == |t|
  {
    Utf16LengthBounds(t);
    assert IsBmp(t) by {
      forall i | 0 <= i < |t| ensures t[i] as int < 0x10000 {
        assert IsCosplayChar(t[i]);
      }
    }
  }

  /** An accepted `nome` or `cosplay` has as many characters as its
      JavaScript length, so the limits count characters. */
  lemma ValidFieldLength(t: string)
    requires ValidNome(t) || ValidCosplay(t)
    ensures Utf16Length(t) == |t|
    ensures ValidNome(t) ==> 1 <= |t| <= NOME_MAX
    ensures ValidCosplay(t) ==> 1 <= |t| <= COSPLAY_MAX
  {
    PatternLength(t);
  }

  // ----- scoreSchema -----

  const NOTA_NOT_NUMBER := "Nota deve ser um número"
  const NOTA_REQUIRED := "Nota é obrigatória"
  const NOTA_BELOW_MIN := "Nota mínima é 0"
  const NOTA_ABOVE_MAX := "Nota máxima é 10"
  const NOTA_NOT_HALF := "Nota deve ser múltiplo de 0.5 (ex: 7.0, 7.5, 8.0)"

  /** The JavaScript values a score field can hold: `null` (not yet scored),
      `undefined`, a number (an exact real here), or anything else. */
  datatype ScoreValue = Null | Undefined | Number(value: real) | NonNumber

  /** `multipleOf(0.5)`: twice the value is a whole number. */
  predicate IsHalfStep(x: real) {
    (2.0 * x).Floor as real == 2.0 * x
  }

  /** The issues of `z.number().min(0).max(10).multipleOf(0.5).nullable()`. */
  function ScoreIssues(v: ScoreValue): seq<string> {
    match v
    case Null => []
    case Undefined => [NOTA_REQUIRED]
    case NonNumber => [NOTA_NOT_NUMBER]
    case Number(x) =>
      (if x < 0.0 then [NOTA_BELOW_MIN] else [])
      + (if x > 10.0 then [NOTA_ABOVE_MAX] else [])
      + (if !IsHalfStep(x) then [NOTA_NOT_HALF] else [])
  }

  /** `scoreSchema.parse`: `null` passes as it is, a number passes when it
      lies in [0, 10] and is a multiple of 0.5, and nothing else passes. */
  function ParseScore(v: ScoreValue): (r: Parsed<ScoreValue>)
    ensures r.Success? <==> v.Null? || (v.Number? && 0.0 <= v.value <= 10.0 && IsHalfStep(v.value))
    ensures r.Success? ==> r.value == v
    ensures r.Failure? ==> |r.issues| >= 1
  {
    var issues := ScoreIssues(v);
    if issues == [] then Success(v) else Failure(issues)
  }

  /** The 21 accepted numbers 0, 0.5, 1, …, 10, in increasing order. */
  const HALF_POINTS: seq<real> := seq(21, k => k as real / 2.0)

  /** A number is accepted as a score exactly when it is one of the 21
      half-points from 0 to 10. */
  lemma ScoreAcceptedExactly(x: real)
    ensures ParseScore(Number(x)).Success? <==> x in HALF_POINTS
  {
    if 0.0 <= x <= 10.0 && IsHalfStep(x) {
      InRangeIsHalfPoint(x);
    }
    if x in HALF_POINTS {
      var k :| 0 <= k < 21 && HALF_POINTS[k] == x;
      HalfPointInRange(k);
    }
  }

  lemma InRangeIsHalfPoint(x: real)
    requires 0.0 <= x <= 10.0 && IsHalfStep(x)
    ensures x in HALF_POINTS
  {
    var k := (2.0 * x).Floor;
    assert 0 <= k <= 20;
    assert HALF_POINTS[k] == x;
  }

  lemma HalfPointInRange(k: int)
    requires 0 <= k < 21
    ensures 0.0 <= HALF_POINTS[k] <= 10.0 && IsHalfStep(HALF_POINTS[k])
  {
    assert 2.0 * HALF_POINTS[k] == k as real;
  }
}
