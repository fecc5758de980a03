/** The data classes the engines pass between each other (Data_Classes/), and
    the Option/Result wrappers that model `None` returns and raised exceptions. */
module Records {

  datatype Option<T> = None | Some(value: T)

  datatype Result<T, E> = Ok(value: T) | Err(error: E)

  /** The exceptions the modelled code raises or re-raises. */
  datatype Error =
    | FileNotFound(path: string)   // open() on a missing transcript file
    | IndexError                   // indexing the empty top-intent list
    | ValueError                   // max() over an empty reason-code count
    | TypeError                    // ', '.join over numbers

  /** A rule hit: its code, whether it escalates, and its keyword score
      (the class calls the score `confidence`). */
  datatype ReasonCode = ReasonCode(code: string, isEscalation: bool, score: int)

  /** A money amount. Python keeps a whole value as `int` and any other as
      `float`; the model keeps the float exactly as a rational. */
  datatype Amount = Whole(n: int) | Fraction(x: real)
  {
    function Value(): real {
      match this
      case Whole(n) => n as real
      case Fraction(x) => x
    }

    /** A whole value is always held as `Whole`. */
    predicate Canonical() {
      Fraction? ==> x.Floor as real != x
    }
  }

  /** Two canonical amounts with the same numeric value are the same amount,
      so comparing amounts compares their values as Python's `==` does. */
  lemma CanonicalAmountsEqual(a: Amount, b: Amount)
    requires a.Canonical() && b.Canonical() && a.Value() == b.Value()
    ensures a == b
  {
    CanonicalIsAmountOf(a);
    CanonicalIsAmountOf(b);
  }

  lemma CanonicalIsAmountOf(a: Amount)
    requires a.Canonical()
    ensures a == AmountOf(a.Value())
  {
    match a
    case Whole(n) =>
      assert (n as real).Floor == n;
    case Fraction(x) =>
  }

  /** The canonical amount of a value. */
  function AmountOf(v: real): (a: Amount)
    ensures a.Canonical() && a.Value() == v
  {
    if v.Floor as real == v then Whole(v.Floor) else Fraction(v)
  }

  datatype Entities = Entities(
    amounts: seq<Amount>,
    dates: seq<string>,
    phones: seq<string>,
    loanNumbers: seq<string>)

  /** A parsed call: the raw text, its normalised form, the speaker labels
      and the time it was parsed. */
  datatype Transcript = Transcript(
    rawText: string,
    normalizedText: string,
    speakers: set<string>,
    timestamp: string)

  datatype RiskLevel = LOW | MEDIUM | HIGH
  {
    /** The string `_calculate_risk_level` returns. */
    function Name(): (s: string)
      ensures s in {"LOW", "MEDIUM", "HIGH"}
    {
      match this
      case LOW => "LOW"
      case MEDIUM => "MEDIUM"
      case HIGH => "HIGH"
    }
  }

  /** The names a risk level can have. */
  const RiskNames: set<string> := {"LOW", "MEDIUM", "HIGH"}

  /** Data_Classes/triageResult.py: the risk level is held as the string the
      escalation engine returned, as the class's `risk_level: str` does. */
  datatype TriageResult = TriageResult(
    intent: string,
    escalate: bool,
    riskLevel: string,
    reasonCodes: seq<ReasonCode>,
    entities: Entities,
    summaryBullets: seq<string>)
}
