/** The ISO 3166-1 alpha-2 country-code table, as looked up by
    `rust_iso3166::from_alpha2`: a code is found exactly when it is one of
    the 249 officially assigned two-letter upper-case codes. */
module Iso3166 {

  /** The second letters that follow a given first letter in an assigned code. */
  function SecondLetters(first: char): string {
    match first
    case 'A' => "DEFGILMOQRSTUWXZ"
    case 'B' => "ABDEFGHIJLMNOQRSTVWYZ"
    case 'C' => "ACDFGHIKLMNORUVWXYZ"
    case 'D' => "EJKMOZ"
    case 'E' => "CEGHRST"
    case 'F' => "IJKMOR"
    case 'G' => "ABDEFGHILMNPQRSTUWY"
    case 'H' => "KMNRTU"
    case 'I' => "DELMNOQRST"
    case 'J' => "EMOP"
    case 'K' => "EGHIMNPRWYZ"
    case 'L' => "ABCIKRSTUVY"
    case 'M' => "ACDEFGHKLMNOPQRSTUVWXYZ"
    case 'N' => "ACEFGILOPRUZ"
    case 'O' => "M"
    case 'P' => "AEFGHKLMNRSTWY"
    case 'Q' => "A"
    case 'R' => "EOSUW"
    case 'S' => "ABCDEGHIJKLMNORSTVXYZ"
    case 'T' => "CDFGHJKLMNORTVWZ"
    case 'U' => "AGMSYZ"
    case 'V' => "ACEGINU"
    case 'W' => "FS"
    case 'Y' => "ET"
    case 'Z' => "AMW"
    case _ => ""
  }

  /** `rust_iso3166::from_alpha2(code).is_some()`. Every assigned code
      consists of two upper-case ASCII letters, so it contains neither `/`
      nor `?` and survives lower- then upper-casing. */
  predicate IsAlpha2(code: string) {
    |code| == 2 && 'A' <= code[0] <= 'Z' && 'A' <= code[1] <= 'Z'
    && code[1] in SecondLetters(code[0])
  }

  lemma UnitedStatesIsAssigned()
    ensures IsAlpha2("US")
  {
    assert "US"[1] == "AGMSYZ"[3];
  }
}
