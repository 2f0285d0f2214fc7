/**
 * Character flyweights: one shared object per symbol, made on the first
 * request and handed out again on every later one. A document keeps, for
 * each character it shows, the shared flyweight together with the position,
 * font and size of that occurrence.
 *
 * The factory's map is a static field in the program: one map for the whole
 * run. Here it is one CharacterFactory object that every document is given.
 */
module FlyweightPattern {

  /** The intrinsic, shared state: the symbol. */
  class CharacterFlyweight {
    const symbol: char

    constructor (symbol: char)
      ensures this.symbol == symbol
    {
      this.symbol := symbol;
    }
  }

  class CharacterFactory {
    var characters: map<char, CharacterFlyweight>
    /** Every symbol ever asked for. */
    ghost var requested: set<char>

    /** Exactly the requested symbols have a flyweight, and each flyweight carries its own symbol. */
    ghost predicate Valid()
      reads this, characters.Values
    {
      && characters.Keys == requested
      && forall c :: c in characters ==> characters[c].symbol == c
    }

    constructor ()
      ensures Valid() && characters == map[] && requested == {}
    {
      characters := map[];
      requested := {};
    }

    /**
     * getCharacter: the flyweight already made for the symbol, or a new one
     * that is stored for later requests.
     */
    method GetCharacter(symbol: char) returns (f: CharacterFlyweight)
      requires Valid()
      modifies this
      ensures Valid() && requested == old(requested) + {symbol}
      ensures f.symbol == symbol && symbol in characters && characters[symbol] == f
      ensures symbol in old(characters) ==> f == old(characters)[symbol] && characters == old(characters)
      ensures symbol !in old(characters) ==> fresh(f) && characters == old(characters)[symbol := f]
    {
      if symbol in characters {
        f := characters[symbol];
      } else {
        f := new CharacterFlyweight(symbol);
        characters := characters[symbol := f];
      }
      requested := requested + {symbol};
    }

    /** getCreatedFlyweightsCount: how many different symbols were ever requested. */
    method GetCreatedFlyweightsCount() returns (n: nat)
      requires Valid()
      ensures n == |requested| && n == |characters|
    {
      n := |characters|;
      assert characters.Keys == requested;
    }
  }

  /** CharacterContext: the extrinsic state of one occurrence, with its shared flyweight. */
  datatype CharacterContext = CharacterContext(character: CharacterFlyweight, row: int, column: int, font: string, size: int)

  class Document {
    const factory: CharacterFactory
    var characters: seq<CharacterContext>

    /** Every occurrence holds the factory's flyweight for its symbol. */
    ghost predicate Shares()
      reads this, factory
    {
      forall k :: 0 <= k < |characters| ==>
        characters[k].character.symbol in factory.characters
        && factory.characters[characters[k].character.symbol] == characters[k].character
    }

    constructor (factory: CharacterFactory)
      ensures this.factory == factory && characters == [] && Shares()
    {
      this.factory := factory;
      characters := [];
    }

    /** addCharacter: exactly one occurrence is appended, holding the shared flyweight for the symbol. */
    method AddCharacter(symbol: char, row: int, column: int, font: string, size: int)
      requires factory.Valid() && Shares()
      modifies this, factory
      ensures factory.Valid() && Shares()
      ensures factory.requested == old(factory.requested) + {symbol}
      ensures old(factory.characters).Keys <= factory.characters.Keys
      ensures factory.characters == old(factory.characters)[symbol := factory.characters[symbol]]
      ensures symbol in old(factory.characters) ==> factory.characters == old(factory.characters)
      ensures characters == old(characters) + [CharacterContext(factory.characters[symbol], row, column, font, size)]
      ensures factory.characters[symbol].symbol == symbol
    {
      var flyweight := factory.GetCharacter(symbol);
      characters := characters + [CharacterContext(flyweight, row, column, font, size)];
    }
  }

  /**
   * Two documents on one factory: adding a character to one never disturbs
   * the other's sharing, because the factory only ever gains flyweights.
   */
  method AddKeepsOtherSharing(a: Document, b: Document, symbol: char, row: int, column: int, font: string, size: int)
    requires a != b && a.factory == b.factory && a.factory.Valid()
    requires a.Shares() && b.Shares()
    modifies a, a.factory
    ensures a.Shares() && b.Shares() && b.characters == old(b.characters)
  {
    a.AddCharacter(symbol, row, column, font, size);
  }

  /** Two occurrences of the same symbol in a sharing document hold the same object. */
  lemma SameSymbolSameObject(document: Document, j: nat, k: nat)
    requires document.Shares()
    requires j < |document.characters| && k < |document.characters|
    requires document.characters[j].character.symbol == document.characters[k].character.symbol
    ensures document.characters[j].character == document.characters[k].character
  {
  }

  /** The symbols of a text other than the space. */
  ghost function Symbols(text: string): set<char> {
    set c | c in text && c != ' '
  }

  /** The number of characters of a text other than the space. */
  function Shown(text: string): nat {
    if text == [] then 0 else (if text[0] == ' ' then 0 else 1) + Shown(text[1..])
  }

  lemma {:induction false} ShownConcat(a: string, b: string)
    ensures Shown(a + b) == Shown(a) + Shown(b)
  {
    if a == [] {
      assert a + b == b;
    } else {
      assert (a + b)[1..] == a[1..] + b;
      ShownConcat(a[1..], b);
    }
  }

  /**
   * The demonstration's loop: each non-space character of the text is added
   * at the current row and column, and the column wraps after 20. The
   * document then has one occurrence per non-space character and the factory
   * one flyweight per different symbol.
   */
  method Typeset(document: Document, text: string)
    requires document.factory.Valid() && document.Shares()
    requires document.characters == [] && document.factory.requested == {}
    modifies document, document.factory
    ensures document.factory.Valid() && document.Shares()
    ensures |document.characters| == Shown(text)
    ensures document.factory.requested == Symbols(text)
  {
    var row, column := 1, 1;
    var i := 0;
    while i < |text|
      invariant 0 <= i <= |text|
      invariant document.factory.Valid() && document.Shares()
      invariant |document.characters| == Shown(text[..i])
      invariant document.factory.requested == Symbols(text[..i])
    {
      var c := text[i];
      assert text[..i + 1] == text[..i] + [c];
      ShownConcat(text[..i], [c]);
      assert [c][1..] == [];
      if c == ' ' {
        column := column + 1;
      } else {
        document.AddCharacter(c, row, column, "Arial", 12);
        column := column + 1;
        if column > 20 {
          row := row + 1;
          column := 1;
        }
      }
      i := i + 1;
    }
    assert text[..i] == text;
  }

  lemma DemoShown()
    ensures Shown("Hello " + "World! " + "Hello " + "Java!") == 21
  {
    assert Shown("Hello ") == 5;
    assert Shown("World! ") == 6;
    assert Shown("Java!") == 5;
    ShownConcat("Hello ", "World! ");
    ShownConcat("Hello " + "World! ", "Hello ");
    ShownConcat("Hello " + "World! " + "Hello ", "Java!");
  }

  lemma DemoSymbols()
    ensures Symbols("Hello " + "World! " + "Hello " + "Java!") == {'H', 'e', 'l', 'o', 'W', 'r', 'd', '!', 'J', 'a', 'v'}
  {
  }

  lemma DemoCount()
    ensures |{'H', 'e', 'l', 'o', 'W', 'r', 'd', '!', 'J', 'a', 'v'}| == 11
  {
  }

  /** The demonstration: 21 characters shown, sharing 11 flyweights. */
  method FlyweightScenario() returns (shown: nat, created: nat)
    ensures shown == 21 && created == 11
  {
    var factory := new CharacterFactory();
    var document := new Document(factory);
    Typeset(document, "Hello " + "World! " + "Hello " + "Java!");
    DemoShown();
    DemoSymbols();
    DemoCount();
    shown := |document.characters|;
    created := factory.GetCreatedFlyweightsCount();
  }
}
