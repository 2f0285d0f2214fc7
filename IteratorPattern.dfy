/**
 * The book collection of the iterator pattern: a list of books that grows at
 * its end, and a cursor iterator over it whose remove deletes the element
 * just before the cursor and steps the cursor back.
 */
module IteratorPattern {
  import opened Wrappers
  import opened Lists

  /** A book; equality is identity, as Book does not override equals. */
  class Book {
    const title: string
    const author: string
    const isbn: string
    const year: int

    constructor (title: string, author: string, isbn: string, year: int)
      ensures this.title == title && this.author == author && this.isbn == isbn && this.year == year
    {
      this.title := title;
      this.author := author;
      this.isbn := isbn;
      this.year := year;
    }
  }

  datatype IteratorError =
    | NoMoreElements   // next() past the end: IllegalStateException
    | NothingToRemove  // remove() at position 0: IllegalStateException
    | IndexOutOfBounds // remove() after the list shrank under the iterator

  class BookCollection {
    var books: seq<Book>

    constructor ()
      ensures books == []
    {
      books := [];
    }

    method AddBook(book: Book)
      modifies this
      ensures books == old(books) + [book]
    {
      books := books + [book];
    }

    method RemoveBook(book: Book)
      modifies this
      ensures books == RemoveFirst(old(books), book)
    {
      books := RemoveFirst(books, book);
    }

    method Size() returns (n: nat)
      ensures n == |books|
    {
      n := |books|;
    }

    method CreateIterator() returns (it: BookIterator)
      ensures fresh(it) && it.collection == this && it.position == 0
    {
      it := new BookIterator(this);
    }
  }

  /** The inner iterator class: a position into its collection's list. */
  class BookIterator {
    const collection: BookCollection
    var position: int

    /** The position lies within the list (it can leave it if the list shrinks from outside). */
    ghost predicate Valid()
      reads this, collection
    {
      0 <= position <= |collection.books|
    }

    constructor (collection: BookCollection)
      ensures this.collection == collection && position == 0 && Valid()
    {
      this.collection := collection;
      position := 0;
    }

    method HasNext() returns (b: bool)
      ensures b <==> position < |collection.books|
    {
      b := position < |collection.books|;
    }

    /** next: the book at the position, and the position moves past it. */
    method Next() returns (r: Result<Book, IteratorError>)
      requires position >= 0
      modifies this
      ensures old(position) < |collection.books| ==>
        r == Ok(collection.books[old(position)]) && position == old(position) + 1
      ensures old(position) >= |collection.books| ==> r == Err(NoMoreElements) && position == old(position)
      ensures old(Valid()) ==> Valid()
    {
      var more := HasNext();
      if !more {
        return Err(NoMoreElements);
      }
      r := Ok(collection.books[position]);
      position := position + 1;
    }

    /**
     * remove: the position steps back and the book there is deleted, which is
     * the one the last next returned. At position 0 nothing happens; when the
     * list has shrunk below the position, the step back happens and the
     * deletion fails.
     */
    method Remove() returns (error: Option<IteratorError>)
      modifies this, collection
      ensures old(position) <= 0 ==>
        error == Some(NothingToRemove) && position == old(position) && collection.books == old(collection.books)
      ensures 0 < old(position) <= |old(collection.books)| ==>
        && error == None && position == old(position) - 1
        && collection.books == old(collection.books)[..position] + old(collection.books)[position + 1..]
      ensures old(position) > |old(collection.books)| ==>
        error == Some(IndexOutOfBounds) && position == old(position) - 1 && collection.books == old(collection.books)
      ensures old(Valid()) ==> Valid()
    {
      if position <= 0 {
        return Some(NothingToRemove);
      }
      position := position - 1;
      if position >= |collection.books| {
        return Some(IndexOutOfBounds);
      }
      collection.books := collection.books[..position] + collection.books[position + 1..];
      error := None;
    }
  }

  /** The books published in or after the given year, in their order. */
  function Kept(s: seq<Book>, year: int): (r: seq<Book>)
    ensures |r| <= |s|
  {
    if s == [] then [] else if s[0].year >= year then [s[0]] + Kept(s[1..], year) else Kept(s[1..], year)
  }

  /** A book is kept exactly when it is in the list and published in or after the year. */
  lemma {:induction false} KeptExactly(s: seq<Book>, year: int, b: Book)
    ensures b in Kept(s, year) <==> b in s && b.year >= year
  {
    if s != [] {
      KeptExactly(s[1..], year, b);
      assert s == [s[0]] + s[1..];
    }
  }

  lemma {:induction false} KeptSnoc(s: seq<Book>, b: Book, year: int)
    ensures Kept(s + [b], year) == Kept(s, year) + (if b.year >= year then [b] else [])
  {
    if s == [] {
      assert s + [b] == [b];
    } else {
      assert (s + [b])[1..] == s[1..] + [b];
      KeptSnoc(s[1..], b, year);
    }
  }

  lemma KeptPrefix(s: seq<Book>, k: nat, year: int)
    requires k < |s|
    ensures Kept(s[..k + 1], year) == Kept(s[..k], year) + (if s[k].year >= year then [s[k]] else [])
    ensures s[k..] == [s[k]] + s[k + 1..]
  {
    assert s[..k + 1] == s[..k] + [s[k]];
    KeptSnoc(s[..k], s[k], year);
  }

  /** Deleting the element just after a prefix leaves the prefix and the rest of the tail. */
  lemma DropAfter(prefix: seq<Book>, tail: seq<Book>)
    requires tail != []
    ensures var s := prefix + tail;
      s[..|prefix|] + s[|prefix| + 1..] == prefix + tail[1..]
  {
    var s := prefix + tail;
    assert s[..|prefix|] == prefix;
    assert s[|prefix| + 1..] == tail[1..];
  }

  /**
   * One round of the demonstration's removal loop: next, then remove when the
   * book is older than the year. The cursor ends just after the books kept.
   */
  method FilterNext(cursor: BookIterator, year: int, ghost kept: seq<Book>, ghost tail: seq<Book>)
    requires tail != [] && cursor.collection.books == kept + tail && cursor.position == |kept|
    modifies cursor, cursor.collection
    ensures var kept' := kept + (if tail[0].year >= year then [tail[0]] else []);
      cursor.collection.books == kept' + tail[1..] && cursor.position == |kept'|
  {
    var next := cursor.Next();
    var book := next.value;
    assert book == tail[0];
    if book.year < year {
      DropAfter(kept, tail);
      var error := cursor.Remove();
    } else {
      assert kept + tail == (kept + [book]) + tail[1..];
    }
  }

  /**
   * The demonstration's removal loop: iterate with next, and remove each book
   * published before the year. Because remove steps the cursor back, no book
   * is skipped: exactly the older books go and the others keep their order.
   */
  method RemovePublishedBefore(library: BookCollection, year: int)
    modifies library
    ensures library.books == Kept(old(library.books), year)
  {
    ghost var original := library.books;
    var cursor := library.CreateIterator();
    ghost var done := 0;
    ghost var kept: seq<Book> := [];
    var more := cursor.HasNext();
    while more
      invariant cursor.collection == library && fresh(cursor)
      invariant 0 <= done <= |original|
      invariant kept == Kept(original[..done], year)
      invariant library.books == kept + original[done..]
      invariant cursor.position == |kept|
      invariant more <==> done < |original|
      decreases |original| - done
    {
      KeptPrefix(original, done, year);
      ghost var tail := original[done..];
      assert tail[0] == original[done] && tail[1..] == original[done + 1..];
      FilterNext(cursor, year, kept, tail);
      kept := kept + (if tail[0].year >= year then [tail[0]] else []);
      done := done + 1;
      more := cursor.HasNext();
    }
    assert original[..done] == original;
  }

  /** The demonstration's listing loop: the iterator yields the books in insertion order. */
  method ListAll(library: BookCollection) returns (seen: seq<Book>)
    ensures seen == library.books
  {
    var cursor := library.CreateIterator();
    seen := [];
    var more := cursor.HasNext();
    while more
      invariant cursor.collection == library && fresh(cursor)
      invariant 0 <= cursor.position <= |library.books|
      invariant seen == library.books[..cursor.position]
      invariant more <==> cursor.position < |library.books|
      decreases |library.books| - cursor.position
    {
      var next := cursor.Next();
      seen := seen + [next.value];
      more := cursor.HasNext();
    }
  }

  /** The demonstration: of four books, the two published before 2010 are removed. */
  method LibraryScenario() returns (titles: seq<string>, size: nat)
    ensures titles == ["Effective Java", "Spring in Action"] && size == 2
  {
    var library := new BookCollection();
    var designPatterns := new Book("Design Patterns", "Gang of Four", "978-0201633610", 1994);
    var cleanCode := new Book("Clean Code", "Robert Martin", "978-0132350884", 2008);
    var effectiveJava := new Book("Effective Java", "Joshua Bloch", "978-0134685991", 2017);
    var spring := new Book("Spring in Action", "Craig Walls", "978-1617294945", 2018);
    library.AddBook(designPatterns);
    library.AddBook(cleanCode);
    library.AddBook(effectiveJava);
    library.AddBook(spring);
    ghost var books := [designPatterns, cleanCode, effectiveJava, spring];
    assert library.books == books;
    RemovePublishedBefore(library, 2010);
    assert books[1..] == [cleanCode, effectiveJava, spring];
    assert books[1..][1..] == [effectiveJava, spring];
    assert [effectiveJava, spring][1..] == [spring] && [spring][1..] == [];
    assert Kept([spring], 2010) == [spring];
    assert Kept([effectiveJava, spring], 2010) == [effectiveJava, spring];
    assert Kept(books, 2010) == [effectiveJava, spring];
    var remaining := ListAll(library);
    titles := [remaining[0].title, remaining[1].title];
    size := library.Size();
  }
}
