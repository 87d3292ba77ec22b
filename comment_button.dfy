/** FoldbackStrip::setup_comment_button: the text of the comment button. */
module CommentButton {
  import opened Text

  /** The characters find_first_of looks for: space, tab and newline. */
  const Separators: set<char> := {' ', '\t', '\n'}

  /** The text shown when there is no word to show. */
  const Placeholder: string := "Comments"

  /** The comment's first word, or the placeholder when the comment is empty
      or starts with a separator. */
  function CommentLabel(comment: string): (r: string)
    ensures |r| > 0
    ensures forall i :: 0 <= i < |r| ==> r[i] !in Separators
    ensures comment == [] ==> r == Placeholder
    ensures comment != [] && comment[0] in Separators ==> r == Placeholder
    // otherwise: the text up to the first separator or the end
    ensures comment != [] && comment[0] !in Separators ==>
      && r <= comment
      && (|r| == |comment| || comment[|r|] in Separators)
  {
    if comment == [] then Placeholder
    else
      var pos := FindFirstOf(comment, Separators);
      var word := comment[..pos];
      if word == [] then Placeholder else word
  }

  /** A comment that is a single word is shown whole. */
  lemma SingleWord(comment: string)
    requires comment != []
    requires forall i :: 0 <= i < |comment| ==> comment[i] !in Separators
    ensures CommentLabel(comment) == comment
  {
  }

  /** The first word of word + separator + rest is word. */
  lemma FirstWordOf(word: string, sep: char, rest: string)
    requires word != []
    requires forall i :: 0 <= i < |word| ==> word[i] !in Separators
    requires sep in Separators
    ensures CommentLabel(word + [sep] + rest) == word
  {
    var c := word + [sep] + rest;
    var r := CommentLabel(c);
    assert c[0] == word[0];
    assert c[|word|] == sep;
    assert |r| == |word|;
    assert r == c[..|word|] == word;
  }
}
