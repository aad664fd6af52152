/** A pandas DataFrame as the pipeline uses it: an ordered list of distinct
    column names, one column of reals per name, all of one length. The index
    is the default one (labels 0, 1, ..., length - 1), which is what the file
    loaders produce. Frames are objects because the pipeline updates some of
    them in place (`df[name] = values`). */
module Frames {
  import opened Common

  ghost predicate WellFormed(columns: seq<Column>, data: map<Column, seq<real>>, length: nat) {
    && (forall c :: c in data <==> c in columns)
    && (forall i, j :: 0 <= i < j < |columns| ==> columns[i] != columns[j])
    && (forall c :: c in data ==> |data[c]| == length)
  }

  class DataFrame {
    var columns: seq<Column>
    var data: map<Column, seq<real>>
    var length: nat

    ghost predicate Valid()
      reads this
    {
      WellFormed(columns, data, length)
    }

    constructor (columns: seq<Column>, data: map<Column, seq<real>>, length: nat)
      requires WellFormed(columns, data, length)
      ensures Valid()
      ensures this.columns == columns && this.data == data && this.length == length
    {
      this.columns := columns;
      this.data := data;
      this.length := length;
    }

    /** `df[name] = values`: replaces an existing column where it stands, or
        appends a new one at the end. */
    method SetColumn(name: Column, values: seq<real>)
      requires Valid() && |values| == length
      modifies this
      ensures Valid() && length == old(length)
      ensures data == old(data)[name := values]
      ensures columns == if name in old(columns) then old(columns) else old(columns) + [name]
    {
      if name !in columns {
        columns := columns + [name];
      }
      data := data[name := values];
    }

    /** `df.copy()`: a new frame with the same contents. */
    method Copy() returns (r: DataFrame)
      requires Valid()
      ensures fresh(r) && r.Valid()
      ensures r.columns == columns && r.data == data && r.length == length
    {
      r := new DataFrame(columns, data, length);
    }
  }

  /** `df.loc[mask]`: the rows a mask keeps, every column filtered alike. */
  method FilterRows(df: DataFrame, keep: seq<bool>) returns (r: DataFrame)
    requires df.Valid() && |keep| == df.length
    ensures fresh(r) && r.Valid()
    ensures r.columns == df.columns && r.length == Count(keep)
    ensures r.data.Keys == df.data.Keys
    ensures forall c :: c in df.data ==> r.data[c] == Where(df.data[c], keep)
  {
    var d := map c | c in df.data :: Where(df.data[c], keep);
    r := new DataFrame(df.columns, d, Count(keep));
  }

  /** The first name of `names` that is not a column of the frame, if any. */
  function FirstMissing(names: seq<Column>, data: map<Column, seq<real>>): (m: Option<Column>)
    ensures m.None? <==> forall c :: c in names ==> c in data
    ensures m.Some? ==> m.value in names && m.value !in data
    ensures m.Some? ==> exists k :: 0 <= k < |names| && names[k] == m.value && forall j :: 0 <= j < k ==> names[j] in data
  {
    if |names| == 0 then None
    else if names[0] !in data then Some(names[0])
    else
      var m := FirstMissing(names[1..], data);
      if m.Some? then
        assert forall j :: 1 <= j <= |names[1..]| ==> names[j] == names[1..][j - 1];
        m
      else m
  }

  /** `df[names]`: a new frame holding only the named columns, in that order;
      a KeyError when one of them is missing (pandas names all of them, the
      model names the first). */
  method SelectColumns(df: DataFrame, names: seq<Column>) returns (r: Result<DataFrame, Error>)
    requires df.Valid()
    requires forall i, j :: 0 <= i < j < |names| ==> names[i] != names[j]
    ensures FirstMissing(names, df.data).Some? ==> r == Failure(KeyError(FirstMissing(names, df.data).value))
    ensures FirstMissing(names, df.data).None? ==> r.Success?
    ensures r.Success? ==> && fresh(r.value) && r.value.Valid()
                           && r.value.columns == names && r.value.length == df.length
                           && r.value.data == map c | c in names :: df.data[c]
  {
    var missing := FirstMissing(names, df.data);
    if missing.Some? {
      return Failure(KeyError(missing.value));
    }
    var d := map c | c in names :: df.data[c];
    var f := new DataFrame(names, d, df.length);
    r := Success(f);
  }
}
