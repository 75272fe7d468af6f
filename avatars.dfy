/** The initials and colour choice of `generateAvatar`
    (utils/generateAvatar.js); drawing them on a canvas is not modelled. */
module Avatars {
  import opened Wrappers
  import opened Text

  const DefaultColor: string := "#000000"

  /** `n || ''`: an absent name is the empty one. */
  function NameOrEmpty(n: Option<string>): string {
    if n.None? then "" else n.value
  }

  /** `c || '#000000'`: an absent or empty colour is black. */
  function ColorOrDefault(c: Option<string>): (r: string)
    ensures c.None? || c.value == "" ==> r == DefaultColor
    ensures c.Some? && c.value != "" ==> r == c.value
  {
    if c.None? || c.value == "" then DefaultColor else c.value
  }

  /** `word.charAt(0).toUpperCase()`: empty for an empty word. */
  function FirstUpper(word: string): (r: string)
    ensures |r| <= 1
  {
    if word == [] then [] else [UpperChar(word[0])]
  }

  /** The initials drawn on the avatar: one word gives its first letter, two
      words both first letters, more words the first letters of the first
      and the last word. Words are what `split(' ')` gives, so runs of
      spaces produce empty words that still count. */
  function Initials(n: Option<string>): (r: string)
    ensures |r| <= 2
  {
    var words := Split(NameOrEmpty(n), ' ');
    if |words| == 1 then FirstUpper(words[0])
    else if |words| == 2 then FirstUpper(words[0]) + FirstUpper(words[1])
    else FirstUpper(words[0]) + FirstUpper(words[|words| - 1])
  }

  /** A missing name draws nothing, as does the empty one. */
  lemma NoNameNoInitials()
    ensures Initials(None) == "" && Initials(Some("")) == ""
  {
  }

  /** A name without spaces gives exactly its upper-cased first character. */
  lemma {:induction false} SingleWord(name: string)
    requires name != [] && ' ' !in name
    ensures Initials(Some(name)) == [UpperChar(name[0])]
  {
    SplitNoSep(name, ' ');
  }

  /** The first initial is the upper-cased first character of the name,
      whenever the name does not start with a space. */
  lemma {:induction false} FirstInitial(name: string)
    requires name != [] && name[0] != ' '
    ensures var r := Initials(Some(name)); r != [] && r[0] == UpperChar(name[0])
  {
    SplitFirst(name, ' ');
  }

  /** With at least one space, the second initial comes from the character
      after the last space; when the name ends with a space there is no
      second initial. */
  lemma {:induction false} LastInitial(name: string, i: nat)
    requires i < |name| && name[i] == ' ' && name[0] != ' '
    requires forall j :: i < j < |name| ==> name[j] != ' '
    ensures i + 1 < |name| ==> Initials(Some(name)) == [UpperChar(name[0]), UpperChar(name[i + 1])]
    ensures i + 1 == |name| ==> Initials(Some(name)) == [UpperChar(name[0])]
  {
    var words := Split(name, ' ');
    SplitFirst(name, ' ');
    SplitLast(name, ' ', i);
    SplitCount(name, ' ');
    CountPositive(name, ' ', i);
    assert |words| >= 2;
  }

  /** Two spaces between the words make three words, the middle one empty;
      the initials are still taken from the first and the last word. */
  lemma DoubleSpace()
    ensures Initials(Some("ada  lovelace")) == "AL"
  {
    LastInitial("ada  lovelace", 4);
  }

  /** A trailing space makes an empty last word, which drops the second
      initial. */
  lemma TrailingSpace()
    ensures Initials(Some("ada lovelace ")) == "A"
  {
    LastInitial("ada lovelace ", 12);
  }
}
