/** The Pcl4 symbol table: a name-to-entry map filled by `enter`, and entries
    whose name is fixed and whose value slot the interpreter overwrites. */
module SymTab {

  /** A symbol table entry: an immutable name and a mutable value, 0.0 at first. */
  class Entry {
    const name: string
    var value: real

    constructor (name: string)
      ensures this.name == name && value == 0.0
    {
      this.name := name;
      value := 0.0;
    }

    method GetName() returns (r: string)
      ensures r == name
    {
      r := name;
    }

    method GetValue() returns (v: real)
      ensures v == value
    {
      v := value;
    }

    /** Overwrites the value; the name is a constant and cannot change. */
    method SetValue(v: real)
      modifies this`value
      ensures value == v
    {
      value := v;
    }
  }

  class SymTable {
    var contents: map<string, Entry>

    /** Every entry is filed under its own name. */
    predicate Valid()
      reads this
    {
      forall n :: n in contents ==> contents[n].name == n
    }

    constructor ()
      ensures contents == map[] && Valid()
    {
      contents := map[];
    }

    /** Makes a new entry for `name` and files it under that name, replacing
        any entry the name had before (duplicates are not refused). */
    method Enter(name: string) returns (e: Entry)
      requires Valid()
      modifies this
      ensures fresh(e) && e.name == name && e.value == 0.0
      ensures contents == old(contents)[name := e]
      ensures Valid()
    {
      e := new Entry(name);
      contents := contents[name := e];
    }

    /** The entry filed under `name`, or null when the name was never entered. */
    method Lookup(name: string) returns (e: Entry?)
      requires Valid()
      ensures name in contents ==> e == contents[name]
      ensures name !in contents ==> e == null
      ensures e != null ==> e.name == name
    {
      if name in contents {
        e := contents[name];
      } else {
        e := null;
      }
    }
  }

  /** What a caller can rely on: after entering `name` into a fresh table,
      looking it up gives back the very entry `enter` returned, with value 0.0;
      a name that was never entered is not found; entering a name again
      replaces the entry; and entering one name leaves the other's lookup alone. */
  method EnterThenLookup(name: string, other: string)
    returns (first: Entry, second: Entry, found: Entry?, missing: Entry?, otherFound: Entry?)
    requires name != other
    ensures found == second && second != first
    ensures found != null && found.name == name && found.value == 0.0
    ensures missing == null
    ensures otherFound != null && otherFound.name == other
  {
    var table := new SymTable();
    var o := table.Enter(other);
    missing := table.Lookup(name);
    first := table.Enter(name);
    second := table.Enter(name);
    found := table.Lookup(name);
    otherFound := table.Lookup(other);
    assert otherFound == o;
  }
}
