/** The exchange accounts a user keeps (`BinanceUser` of src/services/types.ts)
    and the two helpers the profile page and the header share: the avatar
    initials and the lookup by id. */
module BinanceAccounts {
  import opened Wrappers
  import opened Text
  import opened Seqs

  datatype Account = Account(
    id: string, userId: string, nickname: string, apiKey: string,
    secretKey: string, createdAt: string, avatarUrl: Option<string>)

  /** `parts.map(part => part[0]).join('')`: an empty part contributes
      `undefined`, which `join` writes as nothing. */
  function Heads(parts: seq<string>): (r: string)
    ensures |r| <= |parts|
    decreases |parts|
  {
    if parts == [] then []
    else (if parts[0] == [] then [] else [parts[0][0]]) + Heads(parts[1..])
  }

  /** A part that contributes its first character. */
  predicate NonEmptyPart(part: string) { part != [] }

  /** What `Heads` computes: one character per non-empty part, the first
      character of that part, in the parts' order. */
  lemma {:induction false} HeadsAreFirstChars(parts: seq<string>)
    ensures |Heads(parts)| == |Filter(parts, NonEmptyPart)|
    ensures forall i :: 0 <= i < |Heads(parts)| ==>
      Filter(parts, NonEmptyPart)[i] != [] && Heads(parts)[i] == Filter(parts, NonEmptyPart)[i][0]
    decreases |parts|
  {
    if parts != [] {
      HeadsAreFirstChars(parts[1..]);
      if parts[0] != [] {
        var h := Heads(parts);
        var f := Filter(parts, NonEmptyPart);
        assert h == [parts[0][0]] + Heads(parts[1..]);
        assert f == [parts[0]] + Filter(parts[1..], NonEmptyPart);
        forall i | 0 <= i < |h| ensures f[i] != [] && h[i] == f[i][0] {
          if i > 0 {
            assert h[i] == Heads(parts[1..])[i - 1];
            assert f[i] == Filter(parts[1..], NonEmptyPart)[i - 1];
          }
        }
      }
    }
  }

  /** `getInitials`: the first characters of the space-separated words,
      upper-cased, at most two of them. */
  function Initials(name: string): (r: string)
    ensures |r| <= 2
    ensures forall i :: 0 <= i < |r| ==> !IsAsciiLower(r[i])
    ensures StartsWith(Upper(Heads(Split(name, ' '))), r)
    ensures |r| == if |Heads(Split(name, ' '))| <= 2 then |Heads(Split(name, ' '))| else 2
  {
    var s := Upper(Heads(Split(name, ' ')));
    if |s| <= 2 then s else s[..2]
  }

  /** A one-word name gives its own first letter, upper-cased. */
  lemma InitialsOfWord(word: string)
    requires word != [] && ' ' !in word
    ensures Initials(word) == [UpperChar(word[0])]
  {
    SplitNoSeparator(word, ' ');
    assert Heads([word]) == [word[0]];
  }

  /** The first two words decide the initials, whatever follows them. */
  lemma InitialsOfTwoWords(first: string, second: string, rest: string)
    requires first != [] && ' ' !in first
    requires second != [] && ' ' !in second
    requires rest == [] || rest[0] == ' '
    ensures Initials(first + " " + second + rest) == [UpperChar(first[0]), UpperChar(second[0])]
  {
    var name := first + " " + second + rest;
    assert name == first + [' '] + (second + rest);
    SplitTagged(first, second + rest, ' ');
    var tail := Split(second + rest, ' ');
    if rest == [] {
      assert second + rest == second;
      SplitNoSeparator(second, ' ');
    } else {
      assert second + rest == second + [' '] + rest[1..];
      SplitTagged(second, rest[1..], ' ');
    }
    assert tail[0] == second;
    assert Heads(tail) == [second[0]] + Heads(tail[1..]);
    assert Heads([first] + tail) == [first[0]] + Heads(tail);
  }

  /** A leading space contributes nothing. (Trailing and repeated spaces
      give empty parts too, which `HeadsAreFirstChars` shows are skipped.) */
  lemma InitialsSkipLeadingSpace(name: string)
    ensures Initials(" " + name) == Initials(name)
  {
    assert (" " + name)[1..] == name;
    assert Split(" " + name, ' ') == [[]] + Split(name, ' ');
    assert Heads([[]] + Split(name, ' ')) == Heads(Split(name, ' '));
  }

  /** `accounts.find(acc => acc.id === id)`. */
  function FindById(accounts: seq<Account>, id: string): (r: Option<Account>)
    ensures r.None? <==> forall i :: 0 <= i < |accounts| ==> accounts[i].id != id
    ensures r.Some? ==> r.value in accounts && r.value.id == id
  {
    Find(accounts, (a: Account) => a.id == id)
  }

  /** The account listed first among those with this id is the one found. */
  lemma FindByIdFirst(accounts: seq<Account>, id: string, k: nat)
    requires k < |accounts| && accounts[k].id == id
    requires forall j :: 0 <= j < k ==> accounts[j].id != id
    ensures FindById(accounts, id) == Some(accounts[k])
  {
    FindFirst(accounts, (a: Account) => a.id == id, k);
  }

  /** Some listed account has this id. */
  predicate Listed(accounts: seq<Account>, id: string) {
    exists i :: 0 <= i < |accounts| && accounts[i].id == id
  }
}
