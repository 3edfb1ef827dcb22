/** `numberToMoney`: the amount in won written with the Korean units
    만 (10^4) and 억 (10^8), e.g. 60000 as "6만원" and 60000007000 as
    "600억7000원". */
module Money {
  import opened Decimal

  datatype Money = Formatted(text: string) | TooManyDigits

  /** The last four digits of a digit string, read with unary `+`, written back
      without leading zeros, and dropped entirely when they are all zero. */
  function LowGroup(s: string): string
    requires |s| >= 4
  {
    var g := ParseDigits(s[|s| - 4..]);
    if g == 0 then "" else NatToString(g)
  }

  /** The source's string manipulation: decide by the length of the decimal text,
      cut four characters at a time off its end. More than 12 digits is an error
      (the source throws). The input is an exact natural written in plain
      decimal; the source's number is written in exponent form from 10^21. */
  function NumberToMoney(n: nat): Money {
    var str := NatToString(n);
    if |str| <= 4 then
      Formatted(str + "원")
    else if |str| <= 8 then
      Formatted(str[..|str| - 4] + "만" + LowGroup(str) + "원")
    else if |str| <= 12 then
      var rest := str[..|str| - 4];
      var g := ParseDigits(rest[|rest| - 4..]);
      var second := if g == 0 then "" else NatToString(g) + "만";
      Formatted(rest[..|rest| - 4] + "억" + second + LowGroup(str) + "원")
    else
      TooManyDigits
  }

  /** A group of four digits as it appears in the text: omitted when zero. */
  function Group(g: nat): string {
    if g == 0 then "" else NatToString(g)
  }

  /** What cutting the last four characters off the text of n means in numbers. */
  lemma CutFour(n: nat)
    requires n >= 10000
    ensures |NatToString(n)| > 4
    ensures NatToString(n)[..|NatToString(n)| - 4] == NatToString(n / 10000)
    ensures ParseDigits(NatToString(n)[|NatToString(n)| - 4..]) == n % 10000
    ensures LowGroup(NatToString(n)) == Group(n % 10000)
  {
    LengthBound(n, 4);
    SplitHead(n, 4);
    SplitTail(n, 4);
    DropLowDivMod(n, 4);
    assert Pow10(4) == 10000;
  }

  /** Up to four digits: the number and "원". */
  lemma MoneyUnits(n: nat)
    requires n < 10000
    ensures NumberToMoney(n) == Formatted(NatToString(n) + "원")
  {
    LengthBound(n, 4);
    assert Pow10(4) == 10000;
  }

  /** Five to eight digits: the part above 10^4, "만", the last group. */
  lemma MoneyMan(n: nat)
    requires 10000 <= n < 100000000
    ensures NumberToMoney(n) == Formatted(NatToString(n / 10000) + "만" + Group(n % 10000) + "원")
  {
    LengthBound(n, 8);
    assert Pow10(8) == 100000000;
    CutFour(n);
  }

  /** Nine to twelve digits: the part above 10^8, "억", the middle group with
      "만", the last group. */
  lemma MoneyEok(n: nat)
    requires 100000000 <= n < 1000000000000
    ensures NumberToMoney(n) == Formatted(NatToString(n / 100000000) + "억"
        + (if (n / 10000) % 10000 == 0 then "" else NatToString((n / 10000) % 10000) + "만")
        + Group(n % 10000) + "원")
  {
    LengthBound(n, 8);
    LengthBound(n, 12);
    assert Pow10(8) == 100000000;
    assert Pow10(12) == 1000000000000;
    var str := NatToString(n);
    var m := n / 10000;
    CutFour(n);
    CutFour(m);
    var rest := str[..|str| - 4];
    assert rest == NatToString(m);
    assert rest[..|rest| - 4] == NatToString(n / 100000000) by {
      assert m / 10000 == n / 100000000;
    }
    assert ParseDigits(rest[|rest| - 4..]) == m % 10000;
  }

  /** More than twelve digits, and only then, is refused. */
  lemma MoneyTooManyDigits(n: nat)
    ensures n >= 1000000000000 <==> NumberToMoney(n) == TooManyDigits
  {
    LengthBound(n, 12);
    assert Pow10(12) == 1000000000000;
  }

  /** The result in terms of the number itself, each group omitted when it is
      zero. */
  lemma NumberToMoneyByUnits(n: nat)
    ensures n < 10000 ==> NumberToMoney(n) == Formatted(NatToString(n) + "원")
    ensures 10000 <= n < 100000000 ==>
      NumberToMoney(n) == Formatted(NatToString(n / 10000) + "만" + Group(n % 10000) + "원")
    ensures 100000000 <= n < 1000000000000 ==>
      NumberToMoney(n) == Formatted(NatToString(n / 100000000) + "억"
        + (if (n / 10000) % 10000 == 0 then "" else NatToString((n / 10000) % 10000) + "만")
        + Group(n % 10000) + "원")
    ensures n >= 1000000000000 <==> NumberToMoney(n) == TooManyDigits
  {
    MoneyTooManyDigits(n);
    if n < 10000 {
      MoneyUnits(n);
    } else if n < 100000000 {
      MoneyMan(n);
    } else if n < 1000000000000 {
      MoneyEok(n);
    }
  }

  /** The two examples written above the function in the source. */
  lemma NumberToMoneySixMan()
    ensures NumberToMoney(60000) == Formatted("6만원")
  {
    MoneyMan(60000);
    assert 60000 / 10000 == 6 && 60000 % 10000 == 0;
    assert NatToString(6) == "6";
  }

  lemma NumberToMoneySixHundredEok(n: nat)
    requires n == 60000007000
    ensures NumberToMoney(n) == Formatted("600억7000원")
  {
    EokArithmetic(n);
    MoneyEok(n);
    assert NatToString(600) == "600" by {
      assert NatToString(60) == NatToString(6) + "0";
    }
    assert Group(7000) == "7000" by {
      assert NatToString(70) == NatToString(7) + "0";
      assert NatToString(700) == NatToString(70) + "0";
    }
  }

  lemma EokArithmetic(n: nat)
    requires n == 60000007000
    ensures n / 100000000 == 600 && (n / 10000) % 10000 == 0 && n % 10000 == 7000
  {
  }
}
