/** The homoglyphs of each letter, and the letter of each homoglyph. */
module HomoglyphTable {
  import opened Basics

  const LETTERS: string := "abcdefghijklmnopqrstuvwxyz"

  function Glyphs(letter: char): string {
    match letter
    case 'a' => "\U{0430}\U{0251}\U{1D00}\U{03B1}\U{237A}"
    case 'b' => "\U{042C}\U{0299}\U{0432}\U{0184}\U{0253}"
    case 'c' => "\U{03F2}\U{1D04}\U{0441}\U{2102}\U{217D}"
    case 'd' => "\U{0501}\U{056A}\U{0257}\U{1D05}\U{0256}"
    case 'e' => "\U{0435}\U{04BD}\U{025B}\U{0258}"
    case 'f' => "\U{0493}\U{0192}\U{A77C}\U{03DD}\U{0284}"
    case 'g' => "\U{0261}\U{0262}\U{0581}\U{0260}\U{01E5}"
    case 'h' => "\U{04BB}\U{043D}\U{1E29}"
    case 'i' => "\U{0456}\U{00EC}\U{00ED}"
    case 'j' => "\U{0458}\U{029D}\U{0249}\U{0135}\U{01F0}\U{025F}"
    case 'k' => "\U{03BA}\U{1D0B}\U{049B}\U{0199}\U{0138}"
    case 'l' => "\U{217C}\U{029F}\U{0140}\U{026D}"
    case 'm' => "\U{043C}\U{1D0D}\U{0271}"
    case 'n' => "\U{0578}\U{043F}\U{057C}\U{1D0E}\U{0272}\U{014B}"
    case 'o' => "\U{043E}\U{0585}\U{1D0F}\U{03BF}"
    case 'p' => "\U{0440}\U{03C1}\U{1D29}\U{01A5}\U{00FE}\U{1D7D}"
    case 'q' => "\U{051B}\U{0563}\U{024B}\U{02A0}"
    case 'r' => "\U{0433}\U{1D26}\U{0280}\U{027E}\U{024D}"
    case 's' => "\U{0455}\U{A731}"
    case 't' => "\U{0442}\U{1D1B}\U{01AD}\U{0288}"
    case 'u' => "\U{03C5}\U{1D1C}\U{057D}\U{028A}\U{0173}"
    case 'v' => "\U{0475}\U{1D20}\U{03BD}\U{028B}\U{2C71}"
    case 'w' => "\U{051D}\U{1D21}\U{03C9}\U{026F}\U{0270}"
    case 'x' => "\U{0445}\U{03C7}"
    case 'y' => "\U{0443}\U{03B3}\U{04AF}\U{10E7}\U{1EF5}"
    case 'z' => "\U{1D22}\U{0290}\U{0291}\U{0292}"
    case _ => ""
  }

  function LatinLetter(glyph: char): Option<char> {
    match glyph
    case '\U{0184}' => Some('b')
    case '\U{0192}' => Some('f')
    case '\U{01E5}' => Some('g')
    case '\U{00EC}' => Some('i')
    case '\U{00ED}' => Some('i')
    case '\U{0249}' => Some('j')
    case '\U{0135}' => Some('j')
    case '\U{01F0}' => Some('j')
    case '\U{0199}' => Some('k')
    case '\U{0138}' => Some('k')
    case '\U{0140}' => Some('l')
    case '\U{014B}' => Some('n')
    case '\U{01A5}' => Some('p')
    case '\U{00FE}' => Some('p')
    case '\U{024B}' => Some('q')
    case '\U{024D}' => Some('r')
    case '\U{01AD}' => Some('t')
    case '\U{0173}' => Some('u')
    case _ => None
  }

  function IpaLetter(glyph: char): Option<char> {
    match glyph
    case '\U{0251}' => Some('a')
    case '\U{0299}' => Some('b')
    case '\U{0253}' => Some('b')
    case '\U{0257}' => Some('d')
    case '\U{0256}' => Some('d')
    case '\U{025B}' => Some('e')
    case '\U{0258}' => Some('e')
    case '\U{0284}' => Some('f')
    case '\U{0261}' => Some('g')
    case '\U{0262}' => Some('g')
    case '\U{0260}' => Some('g')
    case '\U{029D}' => Some('j')
    case '\U{025F}' => Some('j')
    case '\U{029F}' => Some('l')
    case '\U{026D}' => Some('l')
    case '\U{0271}' => Some('m')
    case '\U{0272}' => Some('n')
    case '\U{02A0}' => Some('q')
    case '\U{0280}' => Some('r')
    case '\U{027E}' => Some('r')
    case '\U{0288}' => Some('t')
    case '\U{028A}' => Some('u')
    case '\U{028B}' => Some('v')
    case '\U{026F}' => Some('w')
    case '\U{0270}' => Some('w')
    case '\U{0290}' => Some('z')
    case '\U{0291}' => Some('z')
    case '\U{0292}' => Some('z')
    case _ => None
  }

  function GreekLetter(glyph: char): Option<char> {
    match glyph
    case '\U{03B1}' => Some('a')
    case '\U{03F2}' => Some('c')
    case '\U{03DD}' => Some('f')
    case '\U{03BA}' => Some('k')
    case '\U{03BF}' => Some('o')
    case '\U{03C1}' => Some('p')
    case '\U{03C5}' => Some('u')
    case '\U{03BD}' => Some('v')
    case '\U{03C9}' => Some('w')
    case '\U{03C7}' => Some('x')
    case '\U{03B3}' => Some('y')
    case _ => None
  }

  function CyrillicLetter(glyph: char): Option<char> {
    match glyph
    case '\U{0430}' => Some('a')
    case '\U{042C}' => Some('b')
    case '\U{0432}' => Some('b')
    case '\U{0441}' => Some('c')
    case '\U{0501}' => Some('d')
    case '\U{0435}' => Some('e')
    case '\U{04BD}' => Some('e')
    case '\U{0493}' => Some('f')
    case '\U{04BB}' => Some('h')
    case '\U{043D}' => Some('h')
    case '\U{0456}' => Some('i')
    case '\U{0458}' => Some('j')
    case '\U{049B}' => Some('k')
    case '\U{043C}' => Some('m')
    case '\U{043F}' => Some('n')
    case '\U{043E}' => Some('o')
    case '\U{0440}' => Some('p')
    case '\U{051B}' => Some('q')
    case '\U{0433}' => Some('r')
    case '\U{0455}' => Some('s')
    case '\U{0442}' => Some('t')
    case '\U{0475}' => Some('v')
    case '\U{051D}' => Some('w')
    case '\U{0445}' => Some('x')
    case '\U{0443}' => Some('y')
    case '\U{04AF}' => Some('y')
    case _ => None
  }

  function ArmenianLetter(glyph: char): Option<char> {
    match glyph
    case '\U{056A}' => Some('d')
    case '\U{0581}' => Some('g')
    case '\U{0578}' => Some('n')
    case '\U{057C}' => Some('n')
    case '\U{0585}' => Some('o')
    case '\U{0563}' => Some('q')
    case '\U{057D}' => Some('u')
    case _ => None
  }

  function OtherLetter(glyph: char): Option<char> {
    match glyph
    case '\U{1D00}' => Some('a')
    case '\U{237A}' => Some('a')
    case '\U{1D04}' => Some('c')
    case '\U{2102}' => Some('c')
    case '\U{217D}' => Some('c')
    case '\U{1D05}' => Some('d')
    case '\U{A77C}' => Some('f')
    case '\U{1E29}' => Some('h')
    case '\U{1D0B}' => Some('k')
    case '\U{217C}' => Some('l')
    case '\U{1D0D}' => Some('m')
    case '\U{1D0E}' => Some('n')
    case '\U{1D0F}' => Some('o')
    case '\U{1D29}' => Some('p')
    case '\U{1D7D}' => Some('p')
    case '\U{1D26}' => Some('r')
    case '\U{A731}' => Some('s')
    case '\U{1D1B}' => Some('t')
    case '\U{1D1C}' => Some('u')
    case '\U{1D20}' => Some('v')
    case '\U{2C71}' => Some('v')
    case '\U{1D21}' => Some('w')
    case '\U{10E7}' => Some('y')
    case '\U{1EF5}' => Some('y')
    case '\U{1D22}' => Some('z')
    case _ => None
  }

  /** By Unicode block. */
  function LetterOf(glyph: char): Option<char> {
    if glyph < '\U{0250}' then LatinLetter(glyph)
    else if glyph < '\U{0370}' then IpaLetter(glyph)
    else if glyph < '\U{0400}' then GreekLetter(glyph)
    else if glyph < '\U{0530}' then CyrillicLetter(glyph)
    else if glyph < '\U{1000}' then ArmenianLetter(glyph)
    else OtherLetter(glyph)
  }

  predicate LeadBack(glyphs: string, letter: char) {
    glyphs == "" || (glyphs[0] > '\U{007F}' && LetterOf(glyphs[0]) == Some(letter) && LeadBack(glyphs[1..], letter))
  }

  lemma GlyphsOfA()
    ensures LeadBack(Glyphs('a'), 'a')
  {
  }

  lemma GlyphsOfB()
    ensures LeadBack(Glyphs('b'), 'b')
  {
  }

  lemma GlyphsOfC()
    ensures LeadBack(Glyphs('c'), 'c')
  {
  }

  lemma GlyphsOfD()
    ensures LeadBack(Glyphs('d'), 'd')
  {
  }

  lemma GlyphsOfE()
    ensures LeadBack(Glyphs('e'), 'e')
  {
  }

  lemma GlyphsOfF()
    ensures LeadBack(Glyphs('f'), 'f')
  {
  }

  lemma GlyphsOfG()
    ensures LeadBack(Glyphs('g'), 'g')
  {
  }

  lemma GlyphsOfH()
    ensures LeadBack(Glyphs('h'), 'h')
  {
  }

  lemma GlyphsOfI()
    ensures LeadBack(Glyphs('i'), 'i')
  {
  }

  lemma GlyphsOfJ()
    ensures LeadBack(Glyphs('j'), 'j')
  {
  }

  lemma GlyphsOfK()
    ensures LeadBack(Glyphs('k'), 'k')
  {
  }

  lemma GlyphsOfL()
    ensures LeadBack(Glyphs('l'), 'l')
  {
  }

  lemma GlyphsOfM()
    ensures LeadBack(Glyphs('m'), 'm')
  {
  }

  lemma GlyphsOfN()
    ensures LeadBack(Glyphs('n'), 'n')
  {
  }

  lemma GlyphsOfO()
    ensures LeadBack(Glyphs('o'), 'o')
  {
  }

  lemma GlyphsOfP()
    ensures LeadBack(Glyphs('p'), 'p')
  {
  }

  lemma GlyphsOfQ()
    ensures LeadBack(Glyphs('q'), 'q')
  {
  }

  lemma GlyphsOfR()
    ensures LeadBack(Glyphs('r'), 'r')
  {
  }

  lemma GlyphsOfS()
    ensures LeadBack(Glyphs('s'), 's')
  {
  }

  lemma GlyphsOfT()
    ensures LeadBack(Glyphs('t'), 't')
  {
  }

  lemma GlyphsOfU()
    ensures LeadBack(Glyphs('u'), 'u')
  {
  }

  lemma GlyphsOfV()
    ensures LeadBack(Glyphs('v'), 'v')
  {
  }

  lemma GlyphsOfW()
    ensures LeadBack(Glyphs('w'), 'w')
  {
  }

  lemma GlyphsOfX()
    ensures LeadBack(Glyphs('x'), 'x')
  {
  }

  lemma GlyphsOfY()
    ensures LeadBack(Glyphs('y'), 'y')
  {
  }

  lemma GlyphsOfZ()
    ensures LeadBack(Glyphs('z'), 'z')
  {
  }

  lemma {:induction false} LeadBackAt(glyphs: string, letter: char, i: nat)
    requires i < |glyphs| && LeadBack(glyphs, letter)
    ensures LetterOf(glyphs[i]) == Some(letter) && glyphs[i] > '\U{007F}'
  {
    hide LetterOf;
    if i > 0 {
      LeadBackAt(glyphs[1..], letter, i - 1);
    }
  }

  /** The lists are pairwise disjoint and outside ASCII: each glyph leads back to the letter that lists it. */
  lemma GlyphsLeadBack(letter: char, i: nat)
    requires i < |Glyphs(letter)|
    ensures LetterOf(Glyphs(letter)[i]) == Some(letter) && Glyphs(letter)[i] > '\U{007F}'
  {
    hide LetterOf, LeadBack;
    match letter {
    case 'a' => GlyphsOfA();
    case 'b' => GlyphsOfB();
    case 'c' => GlyphsOfC();
    case 'd' => GlyphsOfD();
    case 'e' => GlyphsOfE();
    case 'f' => GlyphsOfF();
    case 'g' => GlyphsOfG();
    case 'h' => GlyphsOfH();
    case 'i' => GlyphsOfI();
    case 'j' => GlyphsOfJ();
    case 'k' => GlyphsOfK();
    case 'l' => GlyphsOfL();
    case 'm' => GlyphsOfM();
    case 'n' => GlyphsOfN();
    case 'o' => GlyphsOfO();
    case 'p' => GlyphsOfP();
    case 'q' => GlyphsOfQ();
    case 'r' => GlyphsOfR();
    case 's' => GlyphsOfS();
    case 't' => GlyphsOfT();
    case 'u' => GlyphsOfU();
    case 'v' => GlyphsOfV();
    case 'w' => GlyphsOfW();
    case 'x' => GlyphsOfX();
    case 'y' => GlyphsOfY();
    case 'z' => GlyphsOfZ();
    case _ =>
    }
    LeadBackAt(Glyphs(letter), letter, i);
  }
}
