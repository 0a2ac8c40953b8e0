/** The memory collection: unique names, upsert and removal (memory/). */
module Memories {
  import opened Prelude
  import opened Content

  datatype Note = Note(name: string, content: Bytes)

  predicate Letter(c: char)
  {
    'a' <= c <= 'z' || 'A' <= c <= 'Z' || '0' <= c <= '9'
  }

  /** A memory name is a slug: a letter or digit, then letters, digits, dots, dashes, underscores. */
  predicate ValidName(name: string)
  {
    && 0 < |name| <= 128 && Letter(name[0])
    && forall i :: 1 <= i < |name| ==> Letter(name[i]) || name[i] == '.' || name[i] == '_' || name[i] == '-'
  }

  function FindName(notes: seq<Note>, name: string): nat
  {
    FirstIndex(notes, (n: Note) => n.name == name)
  }

  function HandleRemember(notes: seq<Note>, name: string, content: Bytes): seq<Note>
  {
    if !ValidName(name) then notes
    else
      var i := FindName(notes, name);
      if i < |notes| then notes[i := Note(name, content)] else notes + [Note(name, content)]
  }

  function HandleForget(notes: seq<Note>, name: string): seq<Note>
  {
    var i := FindName(notes, name);
    if i < |notes| then notes[..i] + notes[i + 1..] else notes
  }
}
