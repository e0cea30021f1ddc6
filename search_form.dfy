/**
 * `components/SearchForm.tsx`: the classification of a search query as a
 * company number, a mobile phone number, a Hebrew or an English name, and
 * the guard of the submit handler. The rendering and the request sent after
 * the guard are left out.
 */
module SearchForm {
  import opened Wrappers
  import opened Text
  import opened Seqs

  datatype InputType = HpNumber | Phone | NameHebrew | NameEnglish | Invalid

  datatype Validation = Validation(inputType: InputType, isValid: bool, message: Option<string>)

  const InvalidMessage: string :=
    "נא להזין שם עסק (עברית/אנגלית), מספר ח.פ. (9 ספרות) או טלפון (05X-XXXXXXX)"

  /** A character that survives `replace(/[-\s]/g, '')`. */
  predicate KeptInPhone(c: char)
  {
    !(c == '-' || IsJsSpace(c))
  }

  /** The query with dashes and whitespace deleted. */
  function StripSeparators(t: string): (r: string)
    ensures forall k :: 0 <= k < |r| ==> KeptInPhone(r[k])
    ensures forall c :: multiset(r)[c] == if KeptInPhone(c) then multiset(t)[c] else 0
    ensures Subsequence(r, t)
  {
    var r := Filter(t, KeptInPhone);
    FilterSubsequence(t, KeptInPhone);
    forall c
      ensures multiset(r)[c] == if KeptInPhone(c) then multiset(t)[c] else 0
    {
      FilterMultiset(t, KeptInPhone, c);
    }
    r
  }

  /** `/^05\d{8}$/`: 05 followed by eight digits. */
  predicate IsMobileNumber(t: string)
  {
    |t| == 10 && t[0] == '0' && t[1] == '5' && AllDigits(t)
  }

  predicate IsHebrewChar(c: char)
  {
    '֐' <= c <= '׿'
  }

  predicate IsAsciiLetter(c: char)
  {
    ('a' <= c <= 'z') || ('A' <= c <= 'Z')
  }

  /** `/[…]{2,}/` without anchors: two neighbouring characters of the class somewhere. */
  predicate HasPair(t: string, inClass: char -> bool)
  {
    exists i :: 0 <= i < |t| - 1 && inClass(t[i]) && inClass(t[i + 1])
  }

  /** `validateInput`: the first rule that matches decides. */
  function ValidateInput(query: string): (r: Validation)
    ensures var t := JsTrim(query);
      && (r.inputType == HpNumber <==> IsNineDigits(t))
      && (r.inputType == Phone <==> !IsNineDigits(t) && IsMobileNumber(StripSeparators(t)))
      && (r.inputType == NameHebrew <==>
            !IsNineDigits(t) && !IsMobileNumber(StripSeparators(t)) && HasPair(t, IsHebrewChar))
      && (r.inputType == NameEnglish <==>
            !IsNineDigits(t) && !IsMobileNumber(StripSeparators(t)) && !HasPair(t, IsHebrewChar)
            && HasPair(t, IsAsciiLetter))
    ensures r.isValid <==> r.inputType != Invalid
    ensures r.message.Some? <==> !r.isValid
    ensures r.message.Some? ==> r.message.value == InvalidMessage
  {
    var trimmed := JsTrim(query);
    if IsNineDigits(trimmed) then Validation(HpNumber, true, None)
    else if IsMobileNumber(StripSeparators(trimmed)) then Validation(Phone, true, None)
    else if HasPair(trimmed, IsHebrewChar) then Validation(NameHebrew, true, None)
    else if HasPair(trimmed, IsAsciiLetter) then Validation(NameEnglish, true, None)
    else Validation(Invalid, false, Some(InvalidMessage))
  }

  /**
   * A query of digits only is a company number with nine digits, a phone
   * number with ten starting 05, and invalid otherwise.
   */
  lemma DigitsOnlyQuery(query: string)
    requires AllDigits(JsTrim(query))
    ensures var t := JsTrim(query);
      && (ValidateInput(query).inputType == HpNumber <==> |t| == 9)
      && (ValidateInput(query).inputType == Phone <==> |t| == 10 && t[0] == '0' && t[1] == '5')
      && (ValidateInput(query).isValid <==> |t| == 9 || (|t| == 10 && t[0] == '0' && t[1] == '5'))
  {
    DigitsOnlyText(JsTrim(query));
  }

  /** The rules on a text of digits: no separator is dropped and no name pattern matches. */
  lemma DigitsOnlyText(t: string)
    requires AllDigits(t)
    ensures StripSeparators(t) == t
    ensures !HasPair(t, IsHebrewChar) && !HasPair(t, IsAsciiLetter)
  {
    forall k | 0 <= k < |t|
      ensures KeptInPhone(t[k]) && !IsHebrewChar(t[k]) && !IsAsciiLetter(t[k])
    {
      DigitClass(t[k]);
    }
    FilterAll(t, KeptInPhone);
  }

  /** A digit is kept in a phone number and is no letter. */
  lemma DigitClass(c: char)
    requires IsDigit(c)
    ensures KeptInPhone(c) && !IsHebrewChar(c) && !IsAsciiLetter(c)
  {
  }

  /** A string that neither starts nor ends with whitespace is its own trim. */
  lemma TrimUntouched(s: string)
    requires s != [] && !IsJsSpace(s[0]) && !IsJsSpace(s[|s| - 1])
    ensures JsTrim(s) == s
  {
  }

  /** Deleting the dash of the written form 05X-XXXXXXX leaves the ten digits. */
  lemma StripDashedPhone(d: string)
    requires |d| == 8 && AllDigits(d)
    ensures StripSeparators("05" + d[..1] + "-" + d[1..]) == "05" + d
  {
    var head, b := "05" + d[..1], d[1..];
    forall k | 0 <= k < |head|
      ensures KeptInPhone(head[k])
    {
      if k < 2 { assert IsDigit(head[k]); }
      else { assert head[k] == d[0]; }
      DigitClass(head[k]);
    }
    forall k | 0 <= k < |b|
      ensures KeptInPhone(b[k])
    {
      assert b[k] == d[k + 1];
      DigitClass(b[k]);
    }
    FilterAround(head, '-', b, KeptInPhone);
    assert "05" + d[..1] + "-" + d[1..] == head + ['-'] + b;
    assert head + b == "05" + d;
  }

  /** The written form 05X-XXXXXXX is recognised as a phone number. */
  lemma DashedPhone(d: string)
    requires |d| == 8 && AllDigits(d)
    ensures ValidateInput("05" + d[..1] + "-" + d[1..]).inputType == Phone
  {
    DashedTrimmed(d);
    StripDashedPhone(d);
    MobileForm(d);
    PhoneRule("05" + d[..1] + "-" + d[1..], "05" + d);
  }

  /** The written form has eleven characters and no white space at its ends. */
  lemma DashedTrimmed(d: string)
    requires |d| == 8 && AllDigits(d)
    ensures var q := "05" + d[..1] + "-" + d[1..]; JsTrim(q) == q && |q| == 11
  {
    var q := "05" + d[..1] + "-" + d[1..];
    assert |q| == 11 && q[0] == '0' && q[10] == d[7];
    TrimUntouched(q);
  }

  /** 05 followed by eight digits is a mobile number. */
  lemma MobileForm(d: string)
    requires |d| == 8 && AllDigits(d)
    ensures IsMobileNumber("05" + d)
  {
    var m := "05" + d;
    assert forall k :: 2 <= k < 10 ==> m[k] == d[k - 2];
  }

  /** A trimmed query of eleven characters that strips to a mobile number is a phone. */
  lemma PhoneRule(q: string, m: string)
    requires JsTrim(q) == q && |q| == 11
    requires StripSeparators(q) == m && IsMobileNumber(m)
    ensures ValidateInput(q).inputType == Phone
  {
  }

  /** A blank query is invalid for `validateInput` as well, so the guard only changes the message. */
  lemma BlankIsInvalid(query: string)
    requires JsTrim(query) == []
    ensures ValidateInput(query).inputType == Invalid && !ValidateInput(query).isValid
  {
  }

  /** Two neighbouring Hebrew letters make any query that is not a number a valid name. */
  lemma HebrewNameIsValid(query: string)
    requires HasPair(JsTrim(query), IsHebrewChar)
    ensures ValidateInput(query).isValid
  {
  }

  datatype Submission = Rejected(error: string) | Submitted(query: string, inputType: InputType)

  /**
   * `handleSubmit` up to the request: a blank query is refused first; an
   * invalid one is refused with the validation message; otherwise the
   * trimmed query is sent.
   */
  function HandleSubmit(businessName: string): (r: Submission)
    ensures JsTrim(businessName) == [] ==> r == Rejected("נא להזין שם עסק")
    ensures JsTrim(businessName) != [] && !ValidateInput(businessName).isValid ==> r == Rejected(InvalidMessage)
    ensures r.Submitted? <==> JsTrim(businessName) != [] && ValidateInput(businessName).isValid
    ensures r.Submitted? ==>
      r.query == JsTrim(businessName) && r.query != []
      && r.inputType == ValidateInput(businessName).inputType && r.inputType != Invalid
  {
    if JsTrim(businessName) == [] then Rejected("נא להזין שם עסק")
    else
      var validation := ValidateInput(businessName);
      if !validation.isValid then Rejected(validation.message.GetOr("קלט לא תקין"))
      else Submitted(JsTrim(businessName), validation.inputType)
  }
}
