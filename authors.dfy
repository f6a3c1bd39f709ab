/** The blog's authors: lookup by id, by case-insensitive name, and the
    stand-in author for a name nobody is registered under. */
module Authors {
  import opened Wrappers
  import opened Strings
  import opened Seqs

  datatype Author = Author(
    id: string, name: string, title: string, bio: Option<string>, avatar: string, linkedin: Option<string>)

  const DefaultAvatar: string := "https://ui-avatars.com/api/?name=W+S&background=c8ff00&color=0a1628&size=128"

  /** A table of authors: key and author, in declaration order. */
  type AuthorTable = seq<(string, Author)>

  /** `authors`: the single registered author. */
  function Authors(): AuthorTable {
    [("werner-strauch", Author("werner-strauch", "Werner Strauch", "E-Commerce Berater & CTO",
      Some("E-Commerce Berater mit Fokus auf Shopify, ERP-Systeme und Prozessoptimierung."),
      DefaultAvatar, Some("https://linkedin.com/in/wernerstrauch")))]
  }

  /** `authors[key]`: the author stored under a key. */
  function Lookup(table: AuthorTable, key: string): (r: Option<Author>)
    ensures r.Some? <==> exists i :: 0 <= i < |table| && table[i].0 == key
    ensures r.Some? ==> (key, r.value) in table
  {
    match Find(table, (e: (string, Author)) => e.0 == key)
    case None => None
    case Some(e) => Some(e.1)
  }

  /** Whether two names are equal after lower-casing both. */
  predicate SameName(a: string, b: string) {
    Lower(a) == Lower(b)
  }

  /** The author returned for a name nobody is registered under. */
  function UnknownAuthor(nameOrId: string): Author {
    Author("unknown", nameOrId, "Autor", None, DefaultAvatar, None)
  }

  /** `getAuthorByName` over a table: the author stored under the key
      `nameOrId`; else the first author whose name equals it ignoring case;
      else a stand-in author carrying the given name. There is always a
      result. */
  function AuthorByName(table: AuthorTable, nameOrId: string): (r: Author)
    ensures Lookup(table, nameOrId).Some? ==> r == Lookup(table, nameOrId).value
    ensures Lookup(table, nameOrId).None? && (exists i :: 0 <= i < |table| && SameName(table[i].1.name, nameOrId)) ==>
              (exists i :: 0 <= i < |table| && table[i].1 == r && SameName(r.name, nameOrId)
                 && forall j :: 0 <= j < i ==> !SameName(table[j].1.name, nameOrId))
    ensures Lookup(table, nameOrId).None? && (forall i :: 0 <= i < |table| ==> !SameName(table[i].1.name, nameOrId)) ==>
              r == UnknownAuthor(nameOrId)
  {
    match Lookup(table, nameOrId)
    case Some(a) => a
    case None =>
      match FirstIndex(table, (e: (string, Author)) => SameName(e.1.name, nameOrId))
      case Some(i) => table[i].1
      case None => UnknownAuthor(nameOrId)
  }

  /** `getAuthorByName`. */
  function GetAuthorByName(nameOrId: string): Author {
    AuthorByName(Authors(), nameOrId)
  }

  /** The stand-in author is returned exactly when the input is neither a
      key nor, ignoring case, a registered name; it is then the only result
      with the id "unknown" as long as no one is registered under that id. */
  lemma {:induction false} UnknownOnlyWhenUnmatched(table: AuthorTable, nameOrId: string)
    requires forall i :: 0 <= i < |table| ==> table[i].1.id != "unknown"
    ensures AuthorByName(table, nameOrId).id == "unknown" <==>
              Lookup(table, nameOrId).None? && forall i :: 0 <= i < |table| ==> !SameName(table[i].1.name, nameOrId)
  {
    var r := AuthorByName(table, nameOrId);
    if Lookup(table, nameOrId).Some? {
      assert (nameOrId, r) in table;
    } else if exists i :: 0 <= i < |table| && SameName(table[i].1.name, nameOrId) {
      var i :| 0 <= i < |table| && table[i].1 == r && SameName(r.name, nameOrId);
    }
  }

  /** Any spelling of a registered author's name in other capitals finds
      that author, when it is not also a key. */
  lemma {:induction false} NameIgnoresCase(table: AuthorTable, k: nat, spelling: string)
    requires k < |table| && SameName(table[k].1.name, spelling)
    requires forall j :: 0 <= j < k ==> !SameName(table[j].1.name, spelling)
    requires Lookup(table, spelling).None?
    ensures AuthorByName(table, spelling) == table[k].1
  {
    var i :| 0 <= i < |table| && table[i].1 == AuthorByName(table, spelling) && SameName(table[i].1.name, spelling)
             && forall j :: 0 <= j < i ==> !SameName(table[j].1.name, spelling);
    assert i <= k && k <= i;
  }

  /** Lower-casing only changes capitals, so a name differing from another
      only in capital letters is the same name. */
  lemma CapitalsAreIgnored(a: string, b: string)
    requires |a| == |b|
    requires forall i :: 0 <= i < |a| ==> LowerChar(a[i]) == LowerChar(b[i])
    ensures SameName(a, b)
  {
    assert forall i :: 0 <= i < |a| ==> Lower(a)[i] == Lower(b)[i];
  }

  /** Looking the registered author up by key or by name gives the
      author. */
  lemma RegisteredAuthor()
    ensures GetAuthorByName("werner-strauch") == Authors()[0].1
    ensures GetAuthorByName(Authors()[0].1.name) == Authors()[0].1
  {
    var table := Authors();
    var name := table[0].1.name;
    if Lookup(table, name).None? {
      NameIgnoresCase(table, 0, name);
    } else {
      assert (name, Lookup(table, name).value) in table;
    }
  }

  /** Any other input, such as a guest author's name, gives a stand-in with
      that name, the id "unknown" and the title "Autor". */
  lemma UnregisteredName(nameOrId: string)
    requires nameOrId != Authors()[0].0 && !SameName(Authors()[0].1.name, nameOrId)
    ensures GetAuthorByName(nameOrId) == UnknownAuthor(nameOrId)
    ensures GetAuthorByName(nameOrId).name == nameOrId && GetAuthorByName(nameOrId).title == "Autor"
  {
  }

  /** `getAuthorById`: the author stored under that key, if any. */
  function GetAuthorById(id: string): (r: Option<Author>)
    ensures r.None? <==> forall i :: 0 <= i < |Authors()| ==> Authors()[i].0 != id
    ensures r.Some? ==> r.value == Authors()[0].1 && id == "werner-strauch"
  {
    Lookup(Authors(), id)
  }

  /** `getAllAuthors`: every registered author, in order. */
  function GetAllAuthors(): (r: seq<Author>)
    ensures |r| == |Authors()|
    ensures forall i :: 0 <= i < |r| ==> r[i] == Authors()[i].1
  {
    seq(|Authors()|, i requires 0 <= i < |Authors()| => Authors()[i].1)
  }

  /** Each key of the table is its author's id. */
  lemma KeysAreIds()
    ensures forall i :: 0 <= i < |Authors()| ==> Authors()[i].0 == Authors()[i].1.id
  {
  }
}
