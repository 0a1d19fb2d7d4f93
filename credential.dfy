/**
 * The credential rules of `DualAgent`: when a typed key counts as an OpenAI key
 * (`isValidKeyFormat`), and how `processApiKey` and `handleKeyInput` classify the
 * trimmed text of the key field.
 */
module Credential {
  import opened Wrappers
  import opened Text

  const KeyPrefix := "sk-"
  const ProjectKeyPrefix := "sk-proj-"
  /** Keys shorter than this, in UTF-16 code units, are refused as "too short" when confirmed. */
  const MinKeyLength := 20
  /** While typing, keys shorter than this, in UTF-16 code units, only get a "keep typing" hint. */
  const HintLength := 10

  /** Every key that starts with "sk-proj-" already starts with "sk-". */
  lemma ProjectPrefixSubsumed(key: string)
    ensures StartsWith(key, ProjectKeyPrefix) ==> StartsWith(key, KeyPrefix)
  {
    if StartsWith(key, ProjectKeyPrefix) {
      assert StartsWith(ProjectKeyPrefix, KeyPrefix);
      StartsWithTransitive(key, ProjectKeyPrefix, KeyPrefix);
    }
  }

  /**
   * `isValidKeyFormat`: the key starts with "sk-" or with "sk-proj-", which comes to
   * starting with "sk-": the second alternative adds nothing.
   */
  function IsValidKeyFormat(key: string): (valid: bool)
    ensures valid <==> StartsWith(key, KeyPrefix)
  {
    ProjectPrefixSubsumed(key);
    StartsWith(key, KeyPrefix) || StartsWith(key, ProjectKeyPrefix)
  }

  /** A key the session may hold: trimmed, starting with "sk-", at least 20 UTF-16 units long. */
  predicate StorableKey(key: string)
  {
    IsTrimmed(key) && StartsWith(key, KeyPrefix) && Utf16Length(key) >= MinKeyLength
  }

  /** The four ways `processApiKey` can end. */
  datatype KeyVerdict = EmptyKey | InvalidFormat | TooShort | Accepted

  /**
   * How `processApiKey` judges the raw text of the key field: blank, not an OpenAI
   * prefix, too short, or accepted; the checks run in that order on the trimmed text.
   */
  function ClassifyKey(raw: string): (v: KeyVerdict)
    ensures v == EmptyKey <==> Trim(raw) == ""
    ensures v == InvalidFormat <==> Trim(raw) != "" && !StartsWith(Trim(raw), KeyPrefix)
    ensures v == TooShort <==> StartsWith(Trim(raw), KeyPrefix) && Utf16Length(Trim(raw)) < MinKeyLength
    ensures v == Accepted <==> StorableKey(Trim(raw))
  {
    var key := Trim(raw);
    TrimFacts(raw);
    if key == "" then EmptyKey
    else if !IsValidKeyFormat(key) then InvalidFormat
    else if Utf16Length(key) < MinKeyLength then TooShort
    else Accepted
  }

  const InvalidFormatNotice := "Invalid API key format. Should start with \"sk-\" or \"sk-proj-\""
  const TooShortNotice := "API key appears too short"
  const RememberedNotice := "\U{2705} API key remembered for this session"

  /**
   * The key status line `processApiKey` shows for a verdict; None hides it. Only a
   * blank key hides the line, and only an accepted one is announced as remembered.
   */
  function VerdictNotice(v: KeyVerdict): (n: Option<string>)
    ensures n.None? <==> v == EmptyKey
    ensures n == Some(RememberedNotice) <==> v == Accepted
  {
    match v
    case EmptyKey => None
    case InvalidFormat => Some(InvalidFormatNotice)
    case TooShort => Some(TooShortNotice)
    case Accepted => Some(RememberedNotice)
  }

  const KeepTypingHint := "Keep typing..."
  const SaveHint := "Press Enter or click away to save"
  const InvalidFormatHint := "Invalid format. Should start with \"sk-\" or \"sk-proj-\""

  /**
   * The feedback `handleKeyInput` gives for a non-blank trimmed key while it is typed:
   * a key of ten or more characters that starts with "sk-" is announced as ready to be
   * saved, a shorter one is told to keep typing, any other is told its prefix is wrong.
   */
  function TypingHint(key: string): (hint: string)
    ensures hint == SaveHint <==> Utf16Length(key) >= HintLength && StartsWith(key, KeyPrefix)
    ensures hint == KeepTypingHint <==> Utf16Length(key) < HintLength
    ensures hint == InvalidFormatHint <==> Utf16Length(key) >= HintLength && !StartsWith(key, KeyPrefix)
  {
    if Utf16Length(key) < HintLength then KeepTypingHint
    else if IsValidKeyFormat(key) then SaveHint
    else InvalidFormatHint
  }

  /** Each verdict has its own status line: the line tells the verdict. */
  lemma VerdictNoticeInjective(v1: KeyVerdict, v2: KeyVerdict)
    ensures VerdictNotice(v1) == VerdictNotice(v2) <==> v1 == v2
  {
  }

  /**
   * Length is counted in UTF-16 units: "sk-" followed by nine characters outside the
   * Basic Multilingual Plane is twelve characters long but is accepted.
   */
  lemma AstralKeyAccepted()
    ensures var key := "sk-" + "\U{1F600}\U{1F600}\U{1F600}\U{1F600}\U{1F600}\U{1F600}\U{1F600}\U{1F600}\U{1F600}";
      |key| == 12 && ClassifyKey(key) == Accepted
  {
    var e := "\U{1F600}\U{1F600}\U{1F600}";
    var key := "sk-" + (e + e + e);
    assert Utf16Length("sk-") == 3;
    assert Utf16Length(e) == 6;
    Utf16LengthAppend(e, e);
    Utf16LengthAppend(e + e, e);
    Utf16LengthAppend("sk-", e + e + e);
    assert StartsWith(key, KeyPrefix);
    assert "sk-" + "\U{1F600}\U{1F600}\U{1F600}\U{1F600}\U{1F600}\U{1F600}\U{1F600}\U{1F600}\U{1F600}" == key;
    TrimOfTrimmed(key);
  }
}
