/** The contact record and the contact card: its avatar initials and its
    press handler, which hands the card's contact to the `onPay` callback. */
module ContactCard {
  import opened Builtins

  /** A payee. `id` is the creation timestamp printed in decimal; the
      routing details are optional. */
  datatype Contact = Contact(
    id: string,
    name: string,
    mobile: string,
    email: Option<string>,
    accountNumber: Option<string>,
    ifsc: Option<string>,
    upi: Option<string>,
    remark: Option<string>)

  /** `getInitials`: split the name on single spaces, keep the first
      character of each piece (nothing for an empty piece), keep the first
      two of those, join and upper-case. */
  function Initials(name: string): (r: string)
    ensures |r| <= 2
  {
    var heads := Take(FirstChars(Split(name, ' ')), 2);
    ConcatShort(heads);
    ToUpperCase(Concat(heads))
  }

  /** The card's `onPress`: the callback receives the card's own contact. */
  function Press<R>(contact: Contact, onPay: Contact -> R): (r: R)
    ensures r == onPay(contact)
  {
    onPay(contact)
  }

  // ------------------------------------------------ a reference definition

  /** Position of the first `c` in `s`, or `|s|` when there is none. */
  function IndexOf(s: string, c: char): (k: nat)
    ensures k <= |s|
    ensures k < |s| ==> s[k] == c
    ensures forall j :: 0 <= j < k ==> s[j] != c
  {
    if s == [] then 0 else if s[0] == c then 0 else 1 + IndexOf(s[1..], c)
  }

  /** The initials read straight off the name: its first character unless
      it is a space, then the character right after the first space unless
      that one is missing or is itself a space. */
  function InitialsByPosition(name: string): string {
    var k := IndexOf(name, ' ');
    var first := if k > 0 then [name[0]] else "";
    var second := if k + 1 < |name| && name[k + 1] != ' ' then [name[k + 1]] else "";
    ToUpperCase(first + second)
  }

  /** The first piece of a split ends at the first separator; the remaining
      pieces are the split of what follows it. */
  lemma SplitAtFirst(s: string, sep: char)
    ensures Split(s, sep)[0] == s[..IndexOf(s, sep)]
    ensures IndexOf(s, sep) == |s| ==> |Split(s, sep)| == 1
    ensures IndexOf(s, sep) < |s| ==> Split(s, sep)[1..] == Split(s[IndexOf(s, sep) + 1..], sep)
  {
    var k := IndexOf(s, sep);
    var w, t := s[..k], s[k..];
    assert s == w + t;
    assert sep !in w by {
      forall j | 0 <= j < |w| ensures w[j] != sep { assert w[j] == s[j]; }
    }
    SplitFreePrefix(w, t, sep);
    if k == |s| {
      assert t == "";
    } else {
      assert t == [sep] + s[k + 1..];
      assert t[1..] == s[k + 1..];
      var rest := Split(s[k + 1..], sep);
      assert Split(t, sep) == [""] + rest;
      assert w + "" == w;
    }
  }

  /** The first character of a piece is the first character of the remainder
      of the string, when that is not itself a separator. */
  lemma FirstCharOfFirstPiece(s: string, sep: char)
    ensures FirstChar(Split(s, sep)[0]) == if s != [] && s[0] != sep then [s[0]] else ""
  {
    SplitAtFirst(s, sep);
  }

  /** `getInitials` agrees with the position rule on every name. */
  lemma InitialsAgree(name: string)
    ensures Initials(name) == InitialsByPosition(name)
  {
    var parts := Split(name, ' ');
    var k := IndexOf(name, ' ');
    SplitAtFirst(name, ' ');
    var first := if k > 0 then [name[0]] else "";
    assert FirstChar(parts[0]) == first;
    if k == |name| {
      assert Take(FirstChars(parts), 2) == [first];
      assert Concat([first]) == first;
      assert first + "" == first;
    } else {
      var u := name[k + 1..];
      FirstCharOfFirstPiece(u, ' ');
      assert parts[1] == Split(u, ' ')[0];
      var second := if k + 1 < |name| && name[k + 1] != ' ' then [name[k + 1]] else "";
      assert FirstChar(parts[1]) == second;
      assert Take(FirstChars(parts), 2) == [first, second];
      assert [first, second][1..] == [second];
      assert Concat([second]) == second + "";
      assert Concat([first, second]) == first + second;
    }
  }

  // ------------------------------------------------------------- examples

  /** The profile screen shows the same chain applied to "Javed Khan". */
  lemma InitialsOfFullName()
    ensures Initials("Javed Khan") == "JK"
  {
    InitialsAgree("Javed Khan");
    assert IndexOf("Javed Khan", ' ') == 5;
  }

  /** A leading space makes the first piece empty: it adds nothing but still
      takes one of the two places. */
  lemma InitialsWithLeadingSpace()
    ensures Initials(" Javed Khan") == "J"
  {
    InitialsAgree(" Javed Khan");
  }

  /** An empty name has no initials; a single word has one. */
  lemma InitialsOfShortNames(word: string)
    requires word != [] && ' ' !in word
    ensures Initials("") == ""
    ensures Initials(word) == [UpperChar(word[0])]
  {
    InitialsAgree("");
    InitialsAgree(word);
    assert IndexOf(word, ' ') == |word|;
  }
}
