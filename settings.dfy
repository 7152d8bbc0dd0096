/** System defaults (`sys_conf`): the JSON object FetchDefaults assembles
    from the configuration rows, and SysDefaults' choice between the cache
    and the database. */
module Settings {
  import opened Text
  import opened Db

  /** A row of `sys_conf`; `params` is NULL when absent. */
  datatype ConfRow = ConfRow(name: string, setting: Option<string>)

  /** The settings a caller receives: the zero value, or whatever decoding
      the JSON text `source` yields (decoding itself is not modelled). */
  datatype SysSettings = Empty | DecodedFrom(source: string)

  /** What the cache answers for the `sys_defaults` key. */
  datatype CacheReply = Hit(text: string) | Miss | CacheError(msg: string)

  /** The rows `SELECT label, params FROM sys_conf WHERE params IS NOT NULL`
      returns, in table order. */
  function Selected(rows: seq<ConfRow>): (r: seq<ConfRow>)
    ensures |r| <= |rows|
    ensures forall k :: 0 <= k < |r| ==> r[k].setting.Some? && r[k] in rows
    ensures forall k :: 0 <= k < |rows| && rows[k].setting.Some? ==> rows[k] in r
    decreases |rows|
  {
    if |rows| == 0 then []
    else
      var last := rows[|rows| - 1];
      var init := Selected(rows[..|rows| - 1]);
      assert forall k :: 0 <= k < |rows| - 1 ==> rows[..|rows| - 1][k] == rows[k];
      if last.setting.Some? then init + [last] else init
  }

  /** One member of the object: the quoted name, a colon and the raw params. */
  function Entry(row: ConfRow): string
    requires row.setting.Some?
  {
    "\"" + row.name + "\": " + row.setting.value
  }

  /** The entries of the selected rows, in row order. */
  function Entries(rows: seq<ConfRow>): (es: seq<string>)
    requires forall k :: 0 <= k < |rows| ==> rows[k].setting.Some?
    ensures |es| == |rows|
    ensures forall k :: 0 <= k < |rows| ==> es[k] == Entry(rows[k])
  {
    seq(|rows|, k requires 0 <= k < |rows| => Entry(rows[k]))
  }

  /** The assembled object text. */
  function ObjectText(rows: seq<ConfRow>): string {
    "{" + Join(Entries(Selected(rows)), ", ") + "}"
  }

  /** FetchDefaults: read the rows, format one entry per row, then join the
      entries inside braces; a failed query gives the zero settings and its
      error, and a decoding error is dropped. */
  method FetchDefaults(rows: seq<ConfRow>, refused: bool) returns (settings: SysSettings, text: string, err: Status)
    ensures refused ==> settings == Empty && err.Failure?
    ensures !refused ==> err == Success && text == ObjectText(rows) && settings == DecodedFrom(text)
  {
    if refused {
      return Empty, "", Failure("failed to read sys_conf");
    }
    var selected := Selected(rows);
    var entries: seq<string> := [];
    var i := 0;
    while i < |selected|
      invariant 0 <= i <= |selected|
      invariant entries == Entries(selected[..i])
    {
      entries := entries + [Entry(selected[i])];
      i := i + 1;
    }
    assert selected[..|selected|] == selected;
    text := Braced(entries);
    return DecodedFrom(text), text, Success;
  }

  /** The second loop of FetchDefaults: each entry but the last is followed
      by ", ", and the whole is wrapped in braces. */
  method Braced(entries: seq<string>) returns (text: string)
    ensures text == "{" + Join(entries, ", ") + "}"
  {
    var body := "";
    var j := 0;
    while j < |entries|
      invariant 0 <= j <= |entries|
      invariant body == if j == 0 then "" else Join(entries[..j], ", ") + (if j < |entries| then ", " else "")
    {
      JoinStep(entries[..j], ", ", entries[j]);
      assert entries[..j + 1] == entries[..j] + [entries[j]];
      if j < |entries| - 1 {
        body := body + entries[j] + ", ";
      } else {
        body := body + entries[j];
      }
      j := j + 1;
    }
    assert entries[..|entries|] == entries;
    text := "{" + body + "}";
  }

  /** With no configured rows the object is empty. */
  lemma NoRowsEmptyObject(rows: seq<ConfRow>)
    requires forall k :: 0 <= k < |rows| ==> rows[k].setting.None?
    ensures ObjectText(rows) == "{}"
  {
  }

  /** Adding a configured row appends its entry after a ", " (or as the only
      entry), so entries keep row order and no separator trails the last. */
  lemma {:induction false} ObjectTextAppend(rows: seq<ConfRow>, row: ConfRow)
    requires row.setting.Some?
    ensures var t := ObjectText(rows);
      ObjectText(rows + [row]) ==
        if Selected(rows) == [] then "{" + Entry(row) + "}"
        else t[..|t| - 1] + ", " + Entry(row) + "}"
  {
    var sel := Selected(rows);
    var es := Entries(sel);
    SelectedAppend(rows, row);
    EntriesAppend(sel, row);
    JoinStep(es, ", ", Entry(row));
    if sel != [] {
      AppendEntryText(Join(es, ", "), Entry(row));
    }
  }

  /** Reopening `{j}` to add `, e` before the closing brace. */
  lemma AppendEntryText(j: string, e: string)
    ensures var t := "{" + j + "}"; "{" + (j + ", " + e) + "}" == t[..|t| - 1] + ", " + e + "}"
  {
    var t := "{" + j + "}";
    assert t[..|t| - 1] == "{" + j;
  }

  lemma SelectedAppend(rows: seq<ConfRow>, row: ConfRow)
    requires row.setting.Some?
    ensures Selected(rows + [row]) == Selected(rows) + [row]
  {
    var rs := rows + [row];
    assert rs[..|rs| - 1] == rows;
  }

  lemma EntriesAppend(rows: seq<ConfRow>, row: ConfRow)
    requires forall k :: 0 <= k < |rows| ==> rows[k].setting.Some?
    requires row.setting.Some?
    ensures Entries(rows + [row]) == Entries(rows) + [Entry(row)]
  {
  }

  /** A row without setting contributes nothing. */
  lemma NullParamsSkipped(rows: seq<ConfRow>, row: ConfRow)
    requires row.setting.None?
    ensures ObjectText(rows + [row]) == ObjectText(rows)
  {
    var rs := rows + [row];
    assert rs[..|rs| - 1] == rows;
  }

  /** SysDefaults: with the cache on, a missing key gives the zero settings
      and no error, a cache failure gives its error, and a hit is decoded
      with its decoding error dropped; with the cache off, the database is read. */
  method SysDefaults(cacheOn: bool, cached: CacheReply, rows: seq<ConfRow>, refused: bool)
    returns (settings: SysSettings, err: Status)
    ensures cacheOn && cached.Miss? ==> settings == Empty && err == Success
    ensures cacheOn && cached.CacheError? ==> settings == Empty && err == Failure(cached.msg)
    ensures cacheOn && cached.Hit? ==> settings == DecodedFrom(cached.text) && err == Success
    ensures !cacheOn && refused ==> settings == Empty && err.Failure?
    ensures !cacheOn && !refused ==> settings == DecodedFrom(ObjectText(rows)) && err == Success
  {
    if cacheOn {
      match cached
      case Miss => return Empty, Success;
      case CacheError(msg) => return Empty, Failure(msg);
      case Hit(text) => return DecodedFrom(text), Success;
    }
    var text;
    settings, text, err := FetchDefaults(rows, refused);
  }
}
