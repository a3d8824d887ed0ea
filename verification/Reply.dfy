/** The language model's reply: how the program reads its action and its confidence. */
module Reply {
  import opened Prelude
  import opened PolicyEngine
  import opened Classification

  /** What the language model's answer gives for its confidence: nothing that can be read,
      a number, or a text with the percentage and the number found in it, if any. */
  datatype Said = Nothing | Number(value: real) | Text(text: string, percent: Option<real>, number: Option<real>)

  /** The language model's answer: none that can be used, or an action in words and a
      confidence. */
  datatype ModelReply = Unavailable | Reply(action: string, confidence: Said)

  function ParseAction(action: string): ActionType {
    var a := ToUpper(action);
    if Contains(a, "IMMEDIATE") then ImmediateRetry
    else if Contains(a, "DELAY") then DelayedRetry
    else if Contains(a, "METHOD") || Contains(a, "UPDATE") then PaymentMethodUpdate
    else if Contains(a, "LINK") then PaymentLink
    else if Contains(a, "NOTIF") then CustomerNotification
    else if Contains(a, "ESCALAT") then Escalation
    else if Contains(a, "NO_ACTION") then NoAction
    else DelayedRetry
  }

  /** Numbers above 1 are read as percentages, up to 100. */
  function Scaled(v: real): real {
    if 1.0 < v <= 100.0 then v / 100.0 else v
  }

  const DEFAULT_REPLY_CONFIDENCE := 0.80

  function ParseConfidence(said: Said): real {
    match said
    case Nothing => DEFAULT_REPLY_CONFIDENCE
    case Number(v) => Scaled(v)
    case Text(text, percent, number) =>
      if percent.Some? then percent.value / 100.0
      else if number.Some? then Scaled(number.value)
      else
        var words := ToUpper(text);
        if ContainsAny(words, ["HIGH", "LIKELY", "POSSIBLE"]) then 0.85
        else if ContainsAny(words, ["MEDIUM", "MODERATE"]) then 0.70
        else if ContainsAny(words, ["LOW", "UNLIKELY"]) then 0.40
        else DEFAULT_REPLY_CONFIDENCE
  }

  lemma ContainsPart(s: string, word: string, part: string, k: nat)
    requires Contains(s, word) && k + |part| <= |word| && word[k..k + |part|] == part
    ensures Contains(s, part)
  {
    var i :| 0 <= i <= |s| - |word| && StandsAt(word, s, i);
    forall j | 0 <= j < |part| ensures s[i + k + j] == part[j] {
      assert part[j] == word[k..k + |part|][j] == word[k + j] == s[i..i + |word|][k + j];
    }
    assert s[i + k..i + k + |part|] == part;
    assert StandsAt(part, s, i + k);
  }

  /** An "unlikely" or "impossible" reads as 0.85: it holds the word "likely" or "possible". */
  lemma UnlikelyReadsHigh(text: string)
    requires Contains(ToUpper(text), "UNLIKELY") || Contains(ToUpper(text), "IMPOSSIBLE")
    ensures ParseConfidence(Text(text, None, None)) == 0.85
  {
    var words := ToUpper(text);
    var high := ["HIGH", "LIKELY", "POSSIBLE"];
    if Contains(words, "UNLIKELY") {
      ContainsPart(words, "UNLIKELY", "LIKELY", 2);
      assert Contains(words, high[1]);
    } else {
      ContainsPart(words, "IMPOSSIBLE", "POSSIBLE", 2);
      assert Contains(words, high[2]);
    }
  }

  /** The other words for a confidence, when none of the earlier ones stands in the text;
      anything else reads as 0.80. */
  lemma ConfidenceInWords(text: string)
    ensures var words := ToUpper(text);
      var read := ParseConfidence(Text(text, None, None));
      var high := Contains(words, "HIGH") || Contains(words, "LIKELY") || Contains(words, "POSSIBLE");
      var medium := Contains(words, "MEDIUM") || Contains(words, "MODERATE");
      var low := Contains(words, "LOW");
      && (high ==> read == 0.85)
      && (!high && medium ==> read == 0.70)
      && (!high && !medium && low ==> read == 0.40)
      && (!high && !medium && !low ==> read == 0.80)
  {
    var words := ToUpper(text);
    assert ContainsAny(words, ["HIGH", "LIKELY", "POSSIBLE"]) <==>
      Contains(words, "HIGH") || Contains(words, "LIKELY") || Contains(words, "POSSIBLE") by {
      Three(words, "HIGH", "LIKELY", "POSSIBLE");
    }
    Two(words, "MEDIUM", "MODERATE");
    Two(words, "LOW", "UNLIKELY");
    if Contains(words, "UNLIKELY") { ContainsPart(words, "UNLIKELY", "LIKELY", 2); }
  }

  lemma Two(s: string, a: string, b: string)
    ensures ContainsAny(s, [a, b]) <==> Contains(s, a) || Contains(s, b)
  {
    var words := [a, b];
    assert Contains(s, words[0]) <==> Contains(s, a);
    assert Contains(s, words[1]) <==> Contains(s, b);
  }

  lemma Three(s: string, a: string, b: string, c: string)
    ensures ContainsAny(s, [a, b, c]) <==> Contains(s, a) || Contains(s, b) || Contains(s, c)
  {
    var words := [a, b, c];
    assert Contains(s, words[0]) <==> Contains(s, a);
    assert Contains(s, words[1]) <==> Contains(s, b);
    assert Contains(s, words[2]) <==> Contains(s, c);
  }

  /** A number in [0, 1] is taken as it is and one up to 100 as a percentage, so that both
      ways of saying it read the same, alone or in a text. */
  lemma PercentOrShare(share: real, text: string)
    requires 0.01 < share <= 1.0
    ensures ParseConfidence(Number(share)) == share == ParseConfidence(Number(share * 100.0))
    ensures ParseConfidence(Text(text, Some(share * 100.0), None)) == share
    ensures ParseConfidence(Text(text, None, Some(share))) == share
  {
  }

  // ----- the seven actions -----

  function ActionName(a: ActionType): string {
    match a
    case ImmediateRetry => "IMMEDIATE_RETRY"
    case DelayedRetry => "DELAYED_RETRY"
    case PaymentMethodUpdate => "PAYMENT_METHOD_UPDATE"
    case PaymentLink => "PAYMENT_LINK"
    case CustomerNotification => "CUSTOMER_NOTIFICATION"
    case Escalation => "ESCALATION"
    case NoAction => "NO_ACTION"
    case OtherAction(name) => name
  }

  lemma ImmediateRetryName(text: string)
    requires ToUpper(text) == "IMMEDIATE_RETRY"
    ensures ParseAction(text) == ImmediateRetry
  {
    var a := ToUpper(text);
    HoldsWord("", "IMMEDIATE", "_RETRY", ["IMMEDIATE"], 0);
    assert a == "" + "IMMEDIATE" + "_RETRY";
  }

  lemma DelayedRetryName(text: string)
    requires ToUpper(text) == "DELAYED_RETRY"
    ensures ParseAction(text) == DelayedRetry
  {
    var a := ToUpper(text);
    LacksLetter(a, "IMMEDIATE", 0);
    HoldsWord("", "DELAY", "ED_RETRY", ["DELAY"], 0);
    assert a == "" + "DELAY" + "ED_RETRY";
  }

  lemma PaymentMethodUpdateName(text: string)
    requires ToUpper(text) == "PAYMENT_METHOD_UPDATE"
    ensures ParseAction(text) == PaymentMethodUpdate
  {
    var a := ToUpper(text);
    LacksLetter(a, "IMMEDIATE", 0);
    LacksLetter(a, "DELAY", 2);
    HoldsWord("PAYMENT_", "METHOD", "_UPDATE", ["METHOD"], 0);
    assert a == "PAYMENT_" + "METHOD" + "_UPDATE";
  }

  lemma PaymentLinkName(text: string)
    requires ToUpper(text) == "PAYMENT_LINK"
    ensures ParseAction(text) == PaymentLink
  {
    var a := ToUpper(text);
    LacksLetter(a, "IMMEDIATE", 4);
    LacksLetter(a, "DELAY", 0);
    LacksLetter(a, "METHOD", 3);
    LacksLetter(a, "UPDATE", 0);
    HoldsWord("PAYMENT_", "LINK", "", ["LINK"], 0);
    assert a == "PAYMENT_" + "LINK" + "";
  }

  lemma CustomerNotificationLacks(a: string)
    requires a == "CUSTOMER_NOTIFICATION"
    ensures !Contains(a, "IMMEDIATE")
    ensures !Contains(a, "DELAY")
    ensures !Contains(a, "METHOD")
    ensures !Contains(a, "UPDATE")
    ensures !Contains(a, "LINK")
  {
    LacksLetter(a, "IMMEDIATE", 4);
    LacksLetter(a, "DELAY", 0);
    LacksLetter(a, "METHOD", 3);
    LacksLetter(a, "UPDATE", 1);
    LacksLetter(a, "LINK", 0);
  }

  lemma CustomerNotificationName(text: string)
    requires ToUpper(text) == "CUSTOMER_NOTIFICATION"
    ensures ParseAction(text) == CustomerNotification
  {
    var a := ToUpper(text);
    CustomerNotificationLacks(a);
    HoldsWord("CUSTOMER_", "NOTIF", "ICATION", ["NOTIF"], 0);
    assert a == "CUSTOMER_" + "NOTIF" + "ICATION";
  }

  lemma EscalationName(text: string)
    requires ToUpper(text) == "ESCALATION"
    ensures ParseAction(text) == Escalation
  {
    var a := ToUpper(text);
    LacksLetter(a, "IMMEDIATE", 1);
    LacksLetter(a, "DELAY", 0);
    LacksLetter(a, "METHOD", 0);
    LacksLetter(a, "UPDATE", 0);
    LacksLetter(a, "LINK", 3);
    LacksLetter(a, "NOTIF", 4);
    HoldsWord("", "ESCALAT", "ION", ["ESCALAT"], 0);
    assert a == "" + "ESCALAT" + "ION";
  }

  lemma NoActionName(text: string)
    requires ToUpper(text) == "NO_ACTION"
    ensures ParseAction(text) == NoAction
  {
    var a := ToUpper(text);
    LacksLetter(a, "IMMEDIATE", 1);
    LacksLetter(a, "DELAY", 0);
    LacksLetter(a, "METHOD", 0);
    LacksLetter(a, "UPDATE", 0);
    LacksLetter(a, "LINK", 0);
    LacksLetter(a, "NOTIF", 4);
    LacksLetter(a, "ESCALAT", 0);
    HoldsWord("", "NO_ACTION", "", ["NO_ACTION"], 0);
    assert a == "" + "NO_ACTION" + "";
  }

  /** Each of the seven actions the model is asked to choose from is read as itself, in any
      letter case. */
  lemma OwnAction(a: ActionType, text: string)
    requires !a.OtherAction? && ToUpper(text) == ActionName(a)
    ensures ParseAction(text) == a
  {
    match a {
      case ImmediateRetry => ImmediateRetryName(text);
      case DelayedRetry => DelayedRetryName(text);
      case PaymentMethodUpdate => PaymentMethodUpdateName(text);
      case PaymentLink => PaymentLinkName(text);
      case CustomerNotification => CustomerNotificationName(text);
      case Escalation => EscalationName(text);
      case NoAction => NoActionName(text);
    }
  }

  /** Words that name none of them are read as a delayed retry. */
  lemma OtherWords(text: string)
    requires forall word :: word in ["IMMEDIATE", "METHOD", "UPDATE", "LINK", "NOTIF", "ESCALAT", "NO_ACTION"] ==>
      !Contains(ToUpper(text), word)
    ensures ParseAction(text) == DelayedRetry
  {
    var words := ["IMMEDIATE", "METHOD", "UPDATE", "LINK", "NOTIF", "ESCALAT", "NO_ACTION"];
    assert words[0] in words && words[1] in words && words[2] in words && words[3] in words
      && words[4] in words && words[5] in words && words[6] in words;
  }
}
