/**
 * tsk/utils.py: the slug normaliser. The transliterating library call
 * `slugify.slugify` is not modelled; it is the parameter `lib`.
 */
module Utils {
  import PyText

  /** `re.sub(r'&', 'and', text)`: every ampersand becomes the word "and". */
  function ReplaceAmpersands(text: string): (r: string)
    ensures '&' !in r
    ensures '&' !in text ==> r == text
    decreases |text|
  {
    if text == [] then []
    else (if text[0] == '&' then "and" else [text[0]]) + ReplaceAmpersands(text[1..])
  }

  /** Substituting ampersands distributes over concatenation. */
  lemma {:induction false} ReplaceAmpersandsAppend(a: string, b: string)
    ensures ReplaceAmpersands(a + b) == ReplaceAmpersands(a) + ReplaceAmpersands(b)
    decreases |a|
  {
    if a != [] {
      assert (a + b)[1..] == a[1..] + b;
      ReplaceAmpersandsAppend(a[1..], b);
    } else {
      assert a + b == b;
    }
  }

  /** One character: '&' becomes "and", any other is kept; with `ReplaceAmpersandsAppend` this fixes the whole substitution. */
  lemma ReplaceAmpersandsChar(c: char)
    ensures ReplaceAmpersands([c]) == if c == '&' then "and" else [c]
  {
    assert [c][1..] == [];
  }

  /** `slugify(text)`: ampersands spelled out, the library slug taken, the result lower-cased. */
  function Slugify(lib: string -> string, text: string): (r: string)
    ensures |r| == |lib(ReplaceAmpersands(text))|
    ensures forall i :: 0 <= i < |r| ==> !('A' <= r[i] <= 'Z')
  {
    PyText.Lower(lib(ReplaceAmpersands(text)))
  }

  /** Character by character, the slug is the library's slug of the substituted text, lower-cased. */
  lemma SlugifyChars(lib: string -> string, text: string)
    ensures var slug := lib(ReplaceAmpersands(text));
      forall i :: 0 <= i < |slug| ==> Slugify(lib, text)[i] == PyText.LowerChar(slug[i])
  {
  }

  /** An ampersand reaches the library as the word "and": "Q&A" is slugged from "QandA". */
  lemma SlugifySpellsAmpersand(lib: string -> string, a: string, b: string)
    ensures Slugify(lib, a + "&" + b) == PyText.Lower(lib(ReplaceAmpersands(a) + "and" + ReplaceAmpersands(b)))
  {
    ReplaceAmpersandsAppend(a + "&", b);
    ReplaceAmpersandsAppend(a, "&");
    ReplaceAmpersandsChar('&');
  }
}
