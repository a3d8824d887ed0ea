/** Failure codes: which category a code is put into, by the words it holds. */
module Classification {
  import opened Prelude
  import opened Decision

  predicate StandsAt(word: string, s: string, i: nat)
    requires i <= |s| - |word|
  {
    s[i..i + |word|] == word
  }

  predicate Contains(s: string, word: string) {
    exists i :: 0 <= i <= |s| - |word| && StandsAt(word, s, i)
  }

  predicate ContainsAny(s: string, words: seq<string>) {
    exists i :: 0 <= i < |words| && Contains(s, words[i])
  }

  /** The first group with a word in the upper-cased code decides. The standard categories'
      own names need no case of their own, as `OwnName` shows. */
  function Classify(failureCode: string): Category {
    var code := ToUpper(failureCode);
    if ContainsAny(code, ["INSUFFICIENT", "FUNDS", "LOW_BALANCE"]) then InsufficientFunds
    else if ContainsAny(code, ["EXPIRED", "CARD_EXPIRED"]) then ExpiredCard
    else if ContainsAny(code, ["AUTH_FAILED", "AUTHENTICATION", "3D_SECURE"]) then AuthenticationFailed
    else if ContainsAny(code, ["LIMIT", "QUOTA_EXCEEDED", "MAX_AMOUNT"]) then LimitExceeded
    else if ContainsAny(code, ["MANDATE", "RECURRING_FAILED"]) then MandateFailed
    else if ContainsAny(code, ["BANK_OFFLINE", "BANK_UNAVAILABLE", "ISSUER_DOWN"]) then BankUnavailable
    else if ContainsAny(code, ["TIMEOUT", "GATEWAY_TIMEOUT"]) then Timeout
    else if ContainsAny(code, ["NETWORK", "CONNECTION"]) then NetworkError
    else if ContainsAny(code, ["ACTION_REQUIRED", "DO_NOT_HONOR", "RESTRICTED"]) then CustomerActionRequired
    else UnknownError
  }

  // ----- the groups, in order -----

  const GROUPS: seq<(Category, seq<string>)> := [
    (InsufficientFunds, ["INSUFFICIENT", "FUNDS", "LOW_BALANCE"]),
    (ExpiredCard, ["EXPIRED", "CARD_EXPIRED"]),
    (AuthenticationFailed, ["AUTH_FAILED", "AUTHENTICATION", "3D_SECURE"]),
    (LimitExceeded, ["LIMIT", "QUOTA_EXCEEDED", "MAX_AMOUNT"]),
    (MandateFailed, ["MANDATE", "RECURRING_FAILED"]),
    (BankUnavailable, ["BANK_OFFLINE", "BANK_UNAVAILABLE", "ISSUER_DOWN"]),
    (Timeout, ["TIMEOUT", "GATEWAY_TIMEOUT"]),
    (NetworkError, ["NETWORK", "CONNECTION"]),
    (CustomerActionRequired, ["ACTION_REQUIRED", "DO_NOT_HONOR", "RESTRICTED"])]

  predicate HoldsGroup(failureCode: string, k: nat)
    requires k < |GROUPS|
  {
    ContainsAny(ToUpper(failureCode), GROUPS[k].1)
  }

  lemma GroupsInOrder(failureCode: string)
    ensures forall k :: 0 <= k < |GROUPS| && HoldsGroup(failureCode, k) ==> Classify(failureCode) != UnknownError
    ensures forall k :: (0 <= k < |GROUPS| && HoldsGroup(failureCode, k)
                         && forall j :: 0 <= j < k ==> !HoldsGroup(failureCode, j))
              ==> Classify(failureCode) == GROUPS[k].0
    ensures (forall k :: 0 <= k < |GROUPS| ==> !HoldsGroup(failureCode, k)) ==> Classify(failureCode) == UnknownError
  {
    var held0 := HoldsGroup(failureCode, 0);
    var held1 := HoldsGroup(failureCode, 1);
    var held2 := HoldsGroup(failureCode, 2);
    var held3 := HoldsGroup(failureCode, 3);
    var held4 := HoldsGroup(failureCode, 4);
    var held5 := HoldsGroup(failureCode, 5);
    var held6 := HoldsGroup(failureCode, 6);
    var held7 := HoldsGroup(failureCode, 7);
    var held8 := HoldsGroup(failureCode, 8);
  }

  /** A code with a word of some group goes to the first such group, whatever later groups'
      words it holds as well, and in any letter case. */
  lemma FirstGroupDecides(failureCode: string, k: nat)
    requires k < |GROUPS| && HoldsGroup(failureCode, k)
    requires forall j :: 0 <= j < k ==> !HoldsGroup(failureCode, j)
    ensures Classify(failureCode) == GROUPS[k].0
  {
    GroupsInOrder(failureCode);
  }

  /** A code without any of the words is of an unknown category, and only such a one is. */
  lemma UnknownIff(failureCode: string)
    ensures Classify(failureCode) == UnknownError <==> forall k :: 0 <= k < |GROUPS| ==> !HoldsGroup(failureCode, k)
  {
    GroupsInOrder(failureCode);
  }

  // ----- the standard names -----

  function StandardName(c: Category): string {
    match c
    case InsufficientFunds => "INSUFFICIENT_FUNDS"
    case ExpiredCard => "EXPIRED_CARD"
    case AuthenticationFailed => "AUTHENTICATION_FAILED"
    case LimitExceeded => "LIMIT_EXCEEDED"
    case MandateFailed => "MANDATE_FAILED"
    case BankUnavailable => "BANK_UNAVAILABLE"
    case Timeout => "TIMEOUT"
    case NetworkError => "NETWORK_ERROR"
    case CustomerActionRequired => "CUSTOMER_ACTION_REQUIRED"
    case UnknownError => "UNKNOWN"
  }

  lemma LacksLetter(s: string, word: string, k: nat)
    requires k < |word| && word[k] !in s
    ensures !Contains(s, word)
  {
    forall i | 0 <= i <= |s| - |word| ensures !StandsAt(word, s, i) {
      assert s[i + k] == s[i..i + |word|][k];
      assert s[i + k] in s;
    }
  }

  lemma LacksPair(s: string, word: string, k: nat)
    requires k + 1 < |word|
    requires forall i :: 0 <= i < |s| - 1 && s[i] == word[k] ==> s[i + 1] != word[k + 1]
    ensures !Contains(s, word)
  {
    forall i | 0 <= i <= |s| - |word| ensures !StandsAt(word, s, i) {
      assert s[i + k] == s[i..i + |word|][k] && s[i + k + 1] == s[i..i + |word|][k + 1];
    }
  }

  /** None of the words stands in `s`: each is known not to, is too long, or has a letter,
      at its place in `ks`, that `s` has not. */
  lemma LacksGroup(s: string, words: seq<string>, ks: seq<nat>)
    requires |ks| == |words|
    requires forall j :: 0 <= j < |words| ==>
      !Contains(s, words[j]) || |words[j]| > |s| || (ks[j] < |words[j]| && words[j][ks[j]] !in s)
    ensures !ContainsAny(s, words)
  {
    forall j | 0 <= j < |words| ensures !Contains(s, words[j]) {
      if ks[j] < |words[j]| && words[j][ks[j]] !in s { LacksLetter(s, words[j], ks[j]); }
    }
  }

  lemma HoldsWord(front: string, word: string, back: string, words: seq<string>, j: nat)
    requires j < |words| && words[j] == word
    ensures ContainsAny(front + word + back, words)
  {
    var s := front + word + back;
    assert s[|front|..|front| + |word|] == word;
    assert StandsAt(word, s, |front|);
    assert Contains(s, words[j]);
  }

  lemma InsufficientFundsName(code: string)
    requires code == "INSUFFICIENT_FUNDS"
    ensures ContainsAny(code, GROUPS[0].1)
  {
    HoldsWord("", "INSUFFICIENT", "_FUNDS", ["INSUFFICIENT", "FUNDS", "LOW_BALANCE"], 0);
    assert code == "" + "INSUFFICIENT" + "_FUNDS";
  }

  lemma ExpiredCardLacks0(code: string)
    requires code == "EXPIRED_CARD"
    ensures !ContainsAny(code, GROUPS[0].1)
  {
    LacksGroup(code, ["INSUFFICIENT", "FUNDS", "LOW_BALANCE"], [1, 0, 0]);
  }

  lemma ExpiredCardName(code: string)
    requires code == "EXPIRED_CARD"
    ensures ContainsAny(code, GROUPS[1].1)
    ensures !ContainsAny(code, GROUPS[0].1)
  {
    ExpiredCardLacks0(code);
    HoldsWord("", "EXPIRED", "_CARD", ["EXPIRED", "CARD_EXPIRED"], 0);
    assert code == "" + "EXPIRED" + "_CARD";
  }

  lemma AuthenticationFailedLacks0(code: string)
    requires code == "AUTHENTICATION_FAILED"
    ensures !ContainsAny(code, GROUPS[0].1)
    ensures !ContainsAny(code, GROUPS[1].1)
  {
    LacksGroup(code, ["INSUFFICIENT", "FUNDS", "LOW_BALANCE"], [2, 4, 2]);
    LacksGroup(code, ["EXPIRED", "CARD_EXPIRED"], [1, 2]);
  }

  lemma AuthenticationFailedName(code: string)
    requires code == "AUTHENTICATION_FAILED"
    ensures ContainsAny(code, GROUPS[2].1)
    ensures !ContainsAny(code, GROUPS[0].1)
    ensures !ContainsAny(code, GROUPS[1].1)
  {
    AuthenticationFailedLacks0(code);
    HoldsWord("", "AUTHENTICATION", "_FAILED", ["AUTH_FAILED", "AUTHENTICATION", "3D_SECURE"], 1);
    assert code == "" + "AUTHENTICATION" + "_FAILED";
  }

  lemma LimitExceededLacks0(code: string)
    requires code == "LIMIT_EXCEEDED"
    ensures !ContainsAny(code, GROUPS[0].1)
    ensures !ContainsAny(code, GROUPS[1].1)
    ensures !ContainsAny(code, GROUPS[2].1)
  {
    LacksGroup(code, ["INSUFFICIENT", "FUNDS", "LOW_BALANCE"], [1, 0, 1]);
    LacksGroup(code, ["EXPIRED", "CARD_EXPIRED"], [2, 1]);
    LacksGroup(code, ["AUTH_FAILED", "AUTHENTICATION", "3D_SECURE"], [0, 0, 0]);
  }

  lemma LimitExceededName(code: string)
    requires code == "LIMIT_EXCEEDED"
    ensures ContainsAny(code, GROUPS[3].1)
    ensures !ContainsAny(code, GROUPS[0].1)
    ensures !ContainsAny(code, GROUPS[1].1)
    ensures !ContainsAny(code, GROUPS[2].1)
  {
    LimitExceededLacks0(code);
    HoldsWord("", "LIMIT", "_EXCEEDED", ["LIMIT", "QUOTA_EXCEEDED", "MAX_AMOUNT"], 0);
    assert code == "" + "LIMIT" + "_EXCEEDED";
  }

  lemma MandateFailedLacks0(code: string)
    requires code == "MANDATE_FAILED"
    ensures !ContainsAny(code, GROUPS[0].1)
    ensures !ContainsAny(code, GROUPS[1].1)
    ensures !ContainsAny(code, GROUPS[2].1)
    ensures !ContainsAny(code, GROUPS[3].1)
  {
    LacksGroup(code, ["INSUFFICIENT", "FUNDS", "LOW_BALANCE"], [2, 1, 1]);
    LacksGroup(code, ["EXPIRED", "CARD_EXPIRED"], [1, 0]);
    LacksGroup(code, ["AUTH_FAILED", "AUTHENTICATION", "3D_SECURE"], [1, 1, 0]);
    LacksPair(code, "LIMIT", 0);
    LacksGroup(code, ["LIMIT", "QUOTA_EXCEEDED", "MAX_AMOUNT"], [0, 0, 2]);
  }

  lemma MandateFailedName(code: string)
    requires code == "MANDATE_FAILED"
    ensures ContainsAny(code, GROUPS[4].1)
    ensures !ContainsAny(code, GROUPS[0].1)
    ensures !ContainsAny(code, GROUPS[1].1)
    ensures !ContainsAny(code, GROUPS[2].1)
    ensures !ContainsAny(code, GROUPS[3].1)
  {
    MandateFailedLacks0(code);
    HoldsWord("", "MANDATE", "_FAILED", ["MANDATE", "RECURRING_FAILED"], 0);
    assert code == "" + "MANDATE" + "_FAILED";
  }

  lemma BankUnavailableLacks0(code: string)
    requires code == "BANK_UNAVAILABLE"
    ensures !ContainsAny(code, GROUPS[0].1)
    ensures !ContainsAny(code, GROUPS[1].1)
  {
    LacksGroup(code, ["INSUFFICIENT", "FUNDS", "LOW_BALANCE"], [2, 0, 1]);
    LacksGroup(code, ["EXPIRED", "CARD_EXPIRED"], [1, 0]);
  }

  lemma BankUnavailableLacks1(code: string)
    requires code == "BANK_UNAVAILABLE"
    ensures !ContainsAny(code, GROUPS[2].1)
    ensures !ContainsAny(code, GROUPS[3].1)
  {
    LacksGroup(code, ["AUTH_FAILED", "AUTHENTICATION", "3D_SECURE"], [2, 2, 0]);
    LacksGroup(code, ["LIMIT", "QUOTA_EXCEEDED", "MAX_AMOUNT"], [2, 0, 0]);
  }

  lemma BankUnavailableLacks2(code: string)
    requires code == "BANK_UNAVAILABLE"
    ensures !ContainsAny(code, GROUPS[4].1)
  {
    LacksGroup(code, ["MANDATE", "RECURRING_FAILED"], [0, 0]);
  }

  lemma BankUnavailableName(code: string)
    requires code == "BANK_UNAVAILABLE"
    ensures ContainsAny(code, GROUPS[5].1)
    ensures !ContainsAny(code, GROUPS[0].1)
    ensures !ContainsAny(code, GROUPS[1].1)
    ensures !ContainsAny(code, GROUPS[2].1)
    ensures !ContainsAny(code, GROUPS[3].1)
    ensures !ContainsAny(code, GROUPS[4].1)
  {
    BankUnavailableLacks0(code);
    BankUnavailableLacks1(code);
    BankUnavailableLacks2(code);
    HoldsWord("", "BANK_UNAVAILABLE", "", ["BANK_OFFLINE", "BANK_UNAVAILABLE", "ISSUER_DOWN"], 1);
    assert code == "" + "BANK_UNAVAILABLE" + "";
  }

  lemma TimeoutLacks0(code: string)
    requires code == "TIMEOUT"
    ensures !ContainsAny(code, GROUPS[0].1)
    ensures !ContainsAny(code, GROUPS[1].1)
    ensures !ContainsAny(code, GROUPS[2].1)
    ensures !ContainsAny(code, GROUPS[3].1)
  {
    LacksGroup(code, ["INSUFFICIENT", "FUNDS", "LOW_BALANCE"], [0, 0, 0]);
    LacksGroup(code, ["EXPIRED", "CARD_EXPIRED"], [1, 0]);
    LacksGroup(code, ["AUTH_FAILED", "AUTHENTICATION", "3D_SECURE"], [0, 0, 0]);
    LacksGroup(code, ["LIMIT", "QUOTA_EXCEEDED", "MAX_AMOUNT"], [0, 0, 0]);
  }

  lemma TimeoutLacks1(code: string)
    requires code == "TIMEOUT"
    ensures !ContainsAny(code, GROUPS[4].1)
    ensures !ContainsAny(code, GROUPS[5].1)
  {
    LacksGroup(code, ["MANDATE", "RECURRING_FAILED"], [1, 0]);
    LacksGroup(code, ["BANK_OFFLINE", "BANK_UNAVAILABLE", "ISSUER_DOWN"], [0, 0, 0]);
  }

  lemma TimeoutName(code: string)
    requires code == "TIMEOUT"
    ensures ContainsAny(code, GROUPS[6].1)
    ensures !ContainsAny(code, GROUPS[0].1)
    ensures !ContainsAny(code, GROUPS[1].1)
    ensures !ContainsAny(code, GROUPS[2].1)
    ensures !ContainsAny(code, GROUPS[3].1)
    ensures !ContainsAny(code, GROUPS[4].1)
    ensures !ContainsAny(code, GROUPS[5].1)
  {
    TimeoutLacks0(code);
    TimeoutLacks1(code);
    HoldsWord("", "TIMEOUT", "", ["TIMEOUT", "GATEWAY_TIMEOUT"], 0);
    assert code == "" + "TIMEOUT" + "";
  }

  lemma NetworkErrorLacks0(code: string)
    requires code == "NETWORK_ERROR"
    ensures !ContainsAny(code, GROUPS[0].1)
    ensures !ContainsAny(code, GROUPS[1].1)
    ensures !ContainsAny(code, GROUPS[2].1)
    ensures !ContainsAny(code, GROUPS[3].1)
  {
    LacksGroup(code, ["INSUFFICIENT", "FUNDS", "LOW_BALANCE"], [0, 0, 0]);
    LacksGroup(code, ["EXPIRED", "CARD_EXPIRED"], [1, 0]);
    LacksGroup(code, ["AUTH_FAILED", "AUTHENTICATION", "3D_SECURE"], [0, 0, 0]);
    LacksGroup(code, ["LIMIT", "QUOTA_EXCEEDED", "MAX_AMOUNT"], [0, 0, 0]);
  }

  lemma NetworkErrorLacks1(code: string)
    requires code == "NETWORK_ERROR"
    ensures !ContainsAny(code, GROUPS[4].1)
    ensures !ContainsAny(code, GROUPS[5].1)
    ensures !ContainsAny(code, GROUPS[6].1)
  {
    LacksGroup(code, ["MANDATE", "RECURRING_FAILED"], [0, 0]);
    LacksGroup(code, ["BANK_OFFLINE", "BANK_UNAVAILABLE", "ISSUER_DOWN"], [0, 0, 0]);
    LacksGroup(code, ["TIMEOUT", "GATEWAY_TIMEOUT"], [1, 0]);
  }

  lemma NetworkErrorName(code: string)
    requires code == "NETWORK_ERROR"
    ensures ContainsAny(code, GROUPS[7].1)
    ensures !ContainsAny(code, GROUPS[0].1)
    ensures !ContainsAny(code, GROUPS[1].1)
    ensures !ContainsAny(code, GROUPS[2].1)
    ensures !ContainsAny(code, GROUPS[3].1)
    ensures !ContainsAny(code, GROUPS[4].1)
    ensures !ContainsAny(code, GROUPS[5].1)
    ensures !ContainsAny(code, GROUPS[6].1)
  {
    NetworkErrorLacks0(code);
    NetworkErrorLacks1(code);
    HoldsWord("", "NETWORK", "_ERROR", ["NETWORK", "CONNECTION"], 0);
    assert code == "" + "NETWORK" + "_ERROR";
  }

  lemma CustomerActionRequiredLacks0(code: string)
    requires code == "CUSTOMER_ACTION_REQUIRED"
    ensures !ContainsAny(code, GROUPS[0].1)
    ensures !ContainsAny(code, GROUPS[1].1)
  {
    LacksGroup(code, ["INSUFFICIENT", "FUNDS", "LOW_BALANCE"], [4, 0, 0]);
    LacksGroup(code, ["EXPIRED", "CARD_EXPIRED"], [1, 6]);
  }

  lemma CustomerActionRequiredLacks1(code: string)
    requires code == "CUSTOMER_ACTION_REQUIRED"
    ensures !ContainsAny(code, GROUPS[2].1)
    ensures !ContainsAny(code, GROUPS[3].1)
  {
    LacksGroup(code, ["AUTH_FAILED", "AUTHENTICATION", "3D_SECURE"], [3, 3, 0]);
    LacksGroup(code, ["LIMIT", "QUOTA_EXCEEDED", "MAX_AMOUNT"], [0, 7, 2]);
  }

  lemma CustomerActionRequiredLacks2(code: string)
    requires code == "CUSTOMER_ACTION_REQUIRED"
    ensures !ContainsAny(code, GROUPS[4].1)
    ensures !ContainsAny(code, GROUPS[5].1)
  {
    LacksPair(code, "MANDATE", 0);
    LacksGroup(code, ["MANDATE", "RECURRING_FAILED"], [0, 8]);
    LacksGroup(code, ["BANK_OFFLINE", "BANK_UNAVAILABLE", "ISSUER_DOWN"], [0, 0, 9]);
  }

  lemma CustomerActionRequiredLacks3(code: string)
    requires code == "CUSTOMER_ACTION_REQUIRED"
    ensures !ContainsAny(code, GROUPS[6].1)
    ensures !ContainsAny(code, GROUPS[7].1)
  {
    LacksPair(code, "TIMEOUT", 1);
    LacksGroup(code, ["TIMEOUT", "GATEWAY_TIMEOUT"], [0, 0]);
    LacksPair(code, "CONNECTION", 0);
    LacksGroup(code, ["NETWORK", "CONNECTION"], [3, 0]);
  }

  lemma CustomerActionRequiredName(code: string)
    requires code == "CUSTOMER_ACTION_REQUIRED"
    ensures ContainsAny(code, GROUPS[8].1)
    ensures !ContainsAny(code, GROUPS[0].1)
    ensures !ContainsAny(code, GROUPS[1].1)
    ensures !ContainsAny(code, GROUPS[2].1)
    ensures !ContainsAny(code, GROUPS[3].1)
    ensures !ContainsAny(code, GROUPS[4].1)
    ensures !ContainsAny(code, GROUPS[5].1)
    ensures !ContainsAny(code, GROUPS[6].1)
    ensures !ContainsAny(code, GROUPS[7].1)
  {
    CustomerActionRequiredLacks0(code);
    CustomerActionRequiredLacks1(code);
    CustomerActionRequiredLacks2(code);
    CustomerActionRequiredLacks3(code);
    HoldsWord("CUSTOMER_", "ACTION_REQUIRED", "", ["ACTION_REQUIRED", "DO_NOT_HONOR", "RESTRICTED"], 0);
    assert code == "CUSTOMER_" + "ACTION_REQUIRED" + "";
  }

  /** The fallback for standard names in the program is never needed: a category's own
      name, in any letter case, is classified as that category by its words. */
  lemma OwnName(c: Category, code: string)
    requires c != UnknownError && ToUpper(code) == StandardName(c)
    ensures Classify(code) == c
  {
    var upper := ToUpper(code);
    match c {
      case InsufficientFunds => InsufficientFundsName(upper); FirstGroupDecides(code, 0);
      case ExpiredCard => ExpiredCardName(upper); FirstGroupDecides(code, 1);
      case AuthenticationFailed => AuthenticationFailedName(upper); FirstGroupDecides(code, 2);
      case LimitExceeded => LimitExceededName(upper); FirstGroupDecides(code, 3);
      case MandateFailed => MandateFailedName(upper); FirstGroupDecides(code, 4);
      case BankUnavailable => BankUnavailableName(upper); FirstGroupDecides(code, 5);
      case Timeout => TimeoutName(upper); FirstGroupDecides(code, 6);
      case NetworkError => NetworkErrorName(upper); FirstGroupDecides(code, 7);
      case CustomerActionRequired => CustomerActionRequiredName(upper); FirstGroupDecides(code, 8);
    }
  }
}
