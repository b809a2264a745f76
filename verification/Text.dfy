/** White space as the source's string library sees it. */
module Text {
  predicate IsSpace(c: char) {
    c in " \t\n\r" || c in {11 as char, 12 as char, 0x85 as char, 0xA0 as char, 0x1680 as char, 0x2028 as char,
                            0x2029 as char, 0x202F as char, 0x205F as char, 0x3000 as char}
    || 0x2000 as char <= c <= 0x200A as char
  }

  function Trim(s: string): (t: string)
    ensures t == [] || (!IsSpace(t[0]) && !IsSpace(t[|t| - 1]))
  {
    if s == [] then []
    else if IsSpace(s[0]) then Trim(s[1..])
    else if IsSpace(s[|s| - 1]) then Trim(s[..|s| - 1])
    else s
  }
}
