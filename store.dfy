/** The relational store behind both services: the `posts` table. */
module Store {
  import opened Wrappers
  import opened Posts

  /**
   * The table and its auto-increment counter. Rows are only ever appended with
   * a fresh id, so they are kept in ascending id order. `queries` counts the
   * statements issued, so that a contract can say a path issues none.
   */
  class Database {
    var rows: seq<Post>
    var nextId: nat
    ghost var queries: nat

    ghost predicate Valid()
      reads this
    {
      && 1 <= nextId
      && IdsAscending(rows)
      && forall i :: 0 <= i < |rows| ==> 1 <= rows[i].id < nextId
    }

    constructor ()
      ensures Valid() && rows == [] && nextId == 1 && queries == 0
    {
      rows := [];
      nextId := 1;
      queries := 0;
    }

    /** `SELECT * FROM posts ORDER BY id DESC`. */
    method SelectAllByIdDesc() returns (r: seq<Post>)
      requires Valid()
      modifies this`queries
      ensures queries == old(queries) + 1
      ensures IdsDescending(r) && multiset(r) == multiset(rows)
    {
      queries := queries + 1;
      r := Reversed(rows);
      ReversedIsByIdDesc(rows);
    }

    /** `Post::all()`: every row, in an order the query does not fix. */
    method SelectAll() returns (r: seq<Post>)
      modifies this`queries
      ensures queries == old(queries) + 1
      ensures multiset(r) == multiset(rows)
    {
      queries := queries + 1;
      r := rows;
    }

    /** `SELECT * FROM posts WHERE id = ?` with the raw path segment as parameter. */
    method SelectById(segment: string) returns (row: Option<Post>)
      modifies this`queries
      ensures queries == old(queries) + 1
      ensures row == RowWithId(rows, CoercedId(segment))
    {
      queries := queries + 1;
      row := RowWithId(rows, CoercedId(segment));
    }

    /** `Post::create(...)`: one row with the next id is appended. */
    method Insert(title: string, content: string, userId: nat) returns (p: Post)
      requires Valid()
      modifies this`rows, this`nextId, this`queries
      ensures Valid()
      ensures p == Post(old(nextId), title, content, userId)
      ensures rows == old(rows) + [p] && nextId == old(nextId) + 1
      ensures queries == old(queries) + 1
      ensures forall i :: 0 <= i < |old(rows)| ==> old(rows)[i].id < p.id
    {
      p := Post(nextId, title, content, userId);
      rows := rows + [p];
      nextId := nextId + 1;
      queries := queries + 1;
    }
  }
}
