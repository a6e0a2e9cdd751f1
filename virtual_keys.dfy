/**
 * `get_virtual_key_code` (main.rs): the Windows virtual-key code pressed for
 * a character of a key binding. Digits and letters use the codes of their
 * ASCII digit and capital letter, eight punctuation marks use the OEM codes,
 * and upper-case letters are looked up as their lower-case forms.
 */
module VirtualKeys {
  import opened Wrappers
  import opened RustInt

  /** `char::to_ascii_lowercase`: only 'A'..'Z' change. */
  function ToAsciiLowercase(c: char): (r: char)
    ensures 'A' <= c <= 'Z' ==> 'a' <= r <= 'z' && r as int - 'a' as int == c as int - 'A' as int
    ensures !('A' <= c <= 'Z') ==> r == c
  {
    if 'A' <= c <= 'Z' then (c as int - 'A' as int + 'a' as int) as char else c
  }

  /** The ten digit entries of the table (main.rs:26-35). */
  function DigitCode(c: char): Option<u16> {
    match c
    case '0' => Some(0x30)
    case '1' => Some(0x31)
    case '2' => Some(0x32)
    case '3' => Some(0x33)
    case '4' => Some(0x34)
    case '5' => Some(0x35)
    case '6' => Some(0x36)
    case '7' => Some(0x37)
    case '8' => Some(0x38)
    case '9' => Some(0x39)
    case _ => None
  }

  /** The 26 letter entries of the table (main.rs:38-63). */
  function LetterCode(c: char): Option<u16> {
    match c
    case 'a' => Some(0x41)
    case 'b' => Some(0x42)
    case 'c' => Some(0x43)
    case 'd' => Some(0x44)
    case 'e' => Some(0x45)
    case 'f' => Some(0x46)
    case 'g' => Some(0x47)
    case 'h' => Some(0x48)
    case 'i' => Some(0x49)
    case 'j' => Some(0x4A)
    case 'k' => Some(0x4B)
    case 'l' => Some(0x4C)
    case 'm' => Some(0x4D)
    case 'n' => Some(0x4E)
    case 'o' => Some(0x4F)
    case 'p' => Some(0x50)
    case 'q' => Some(0x51)
    case 'r' => Some(0x52)
    case 's' => Some(0x53)
    case 't' => Some(0x54)
    case 'u' => Some(0x55)
    case 'v' => Some(0x56)
    case 'w' => Some(0x57)
    case 'x' => Some(0x58)
    case 'y' => Some(0x59)
    case 'z' => Some(0x5A)
    case _ => None
  }

  /** The eight punctuation entries of the table and their OEM codes (main.rs:66-73). */
  function PunctuationCode(c: char): Option<u16> {
    match c
    case ',' => Some(0xBC)  // VK_OEM_COMMA
    case '.' => Some(0xBE)  // VK_OEM_PERIOD
    case '/' => Some(0xBF)  // VK_OEM_2
    case ';' => Some(0xBA)  // VK_OEM_1
    case '[' => Some(0xDB)  // VK_OEM_4
    case ']' => Some(0xDD)  // VK_OEM_6
    case '-' => Some(0xBD)  // VK_OEM_MINUS
    case '=' => Some(0xBB)  // VK_OEM_PLUS
    case _ => None
  }

  /** The table: the entry of a lower-case key, from whichever group holds it. */
  function TableCode(c: char): Option<u16> {
    if DigitCode(c).Some? then DigitCode(c)
    else if LetterCode(c).Some? then LetterCode(c)
    else PunctuationCode(c)
  }

  /** The code pressed for a character: the table entry of its lower-case form. */
  function VirtualKeyCode(ch: char): Option<u16> {
    TableCode(ToAsciiLowercase(ch))
  }

  /** `HashMap::get(..).copied()` */
  function Get(m: map<char, u16>, c: char): Option<u16> {
    if c in m then Some(m[c]) else None
  }

  /** `get_virtual_key_code` (main.rs:22-76): fills a map entry by entry, then looks up the lower-cased character. */
  method GetVirtualKeyCode(ch: char) returns (code: Option<u16>)
    ensures code == VirtualKeyCode(ch)
  {
    ghost var key := ToAsciiLowercase(ch);
    var m: map<char, u16> := map[];

    // digits
    m := m['0' := 0x30];
    m := m['1' := 0x31];
    m := m['2' := 0x32];
    m := m['3' := 0x33];
    m := m['4' := 0x34];
    m := m['5' := 0x35];
    m := m['6' := 0x36];
    m := m['7' := 0x37];
    m := m['8' := 0x38];
    m := m['9' := 0x39];
    assert Get(m, key) == DigitCode(key);
    ghost var digits := m;

    // letters
    m := m['a' := 0x41];
    m := m['b' := 0x42];
    m := m['c' := 0x43];
    m := m['d' := 0x44];
    m := m['e' := 0x45];
    m := m['f' := 0x46];
    m := m['g' := 0x47];
    m := m['h' := 0x48];
    m := m['i' := 0x49];
    m := m['j' := 0x4A];
    m := m['k' := 0x4B];
    m := m['l' := 0x4C];
    m := m['m' := 0x4D];
    m := m['n' := 0x4E];
    m := m['o' := 0x4F];
    m := m['p' := 0x50];
    m := m['q' := 0x51];
    m := m['r' := 0x52];
    m := m['s' := 0x53];
    m := m['t' := 0x54];
    m := m['u' := 0x55];
    m := m['v' := 0x56];
    m := m['w' := 0x57];
    m := m['x' := 0x58];
    m := m['y' := 0x59];
    m := m['z' := 0x5A];
    assert Get(m, key) == if key in digits then Get(digits, key) else LetterCode(key);
    ghost var lettersAndDigits := m;

    // punctuation
    m := m[',' := 0xBC];
    m := m['.' := 0xBE];
    m := m['/' := 0xBF];
    m := m[';' := 0xBA];
    m := m['[' := 0xDB];
    m := m[']' := 0xDD];
    m := m['-' := 0xBD];
    m := m['=' := 0xBB];
    assert Get(m, key) == if key in lettersAndDigits then Get(lettersAndDigits, key) else PunctuationCode(key);

    code := Get(m, ToAsciiLowercase(ch));
  }

  /**
   * The table by character class: '0'..'9' map to 0x30..0x39 in order, 'a'..'z'
   * to 0x41..0x5A in order (the codes of the capital letters), and every other
   * character to its punctuation entry, if any.
   */
  lemma TableCodeByClass(c: char)
    ensures '0' <= c <= '9' ==> TableCode(c) == Some(0x30 + (c as int - '0' as int))
    ensures 'a' <= c <= 'z' ==> TableCode(c) == Some(0x41 + (c as int - 'a' as int))
    ensures !('0' <= c <= '9' || 'a' <= c <= 'z') ==> TableCode(c) == PunctuationCode(c)
  {
    // split on the code point, so that each entry is read at its own literal
    var n := c as int;
    assert c == n as char;
    if '0' <= c <= '9' {
      assert n in {0x30, 0x31, 0x32, 0x33, 0x34, 0x35, 0x36, 0x37, 0x38, 0x39};
    } else if 'a' <= c <= 'z' {
      assert n in {0x61, 0x62, 0x63, 0x64, 0x65, 0x66, 0x67, 0x68, 0x69, 0x6A, 0x6B, 0x6C, 0x6D,
                   0x6E, 0x6F, 0x70, 0x71, 0x72, 0x73, 0x74, 0x75, 0x76, 0x77, 0x78, 0x79, 0x7A};
    }
  }

  /** An upper-case letter gets the code of its lower-case form, the code of that capital. */
  lemma UppercaseSharesCode(c: char)
    requires 'A' <= c <= 'Z'
    ensures VirtualKeyCode(c) == VirtualKeyCode(ToAsciiLowercase(c))
    ensures VirtualKeyCode(c) == Some(0x41 + (c as int - 'A' as int))
  {
    TableCodeByClass(ToAsciiLowercase(c));
  }

  /**
   * Exactly the 44 characters of the table (after lower-casing) have a code,
   * and every code is one the table lists.
   */
  lemma VirtualKeyCodeDomain(ch: char)
    ensures var c := ToAsciiLowercase(ch);
      VirtualKeyCode(ch).Some? <==> ('0' <= c <= '9' || 'a' <= c <= 'z' || c in ",./;[]-=")
    ensures VirtualKeyCode(ch).Some? ==>
      var v := VirtualKeyCode(ch).value;
      0x30 <= v <= 0x39 || 0x41 <= v <= 0x5A || v in {0xBA, 0xBB, 0xBC, 0xBD, 0xBE, 0xBF, 0xDB, 0xDD}
  {
    TableCodeByClass(ToAsciiLowercase(ch));
  }

  /** Distinct table entries have distinct codes: a code names one character, up to case. */
  lemma VirtualKeyCodeInjective(a: char, b: char)
    requires VirtualKeyCode(a).Some? && VirtualKeyCode(a) == VirtualKeyCode(b)
    ensures ToAsciiLowercase(a) == ToAsciiLowercase(b)
  {
    var ca, cb := ToAsciiLowercase(a), ToAsciiLowercase(b);
    TableCodeByClass(ca);
    TableCodeByClass(cb);
    if !('0' <= ca <= '9' || 'a' <= ca <= 'z') || !('0' <= cb <= '9' || 'a' <= cb <= 'z') {
      VirtualKeyCodeDomain(a);
      VirtualKeyCodeDomain(b);
    }
  }
}
