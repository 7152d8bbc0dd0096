/** Table creation from a record's field tags: the CREATE TABLE statement
    built from the fields tagged `type:"field"`, `"table"` and
    `"constraint"`, and the ALTER TABLE statements that add missing columns
    to an existing table.  A record is given as the sequence of its fields'
    tags in declaration order. */
module Ddl {
  import opened Text
  import opened Db

  /** The tags of one field; a tag the field lacks reads as "". */
  datatype FieldTag = FieldTag(kind: string, json: string, name: string, sql: string)

  /** One item of the CREATE body: a column or a table constraint. */
  datatype Part = Column(column: string, def: string) | Constraint(constraintName: string, def: string)

  function PartText(p: Part): (t: string)
    ensures |t| > 0
  {
    match p
    case Column(c, d) => c + " " + d + "\n\t"
    case Constraint(n, d) => "CONSTRAINT " + n + " " + d + "\n\t"
  }

  function Texts(parts: seq<Part>): (ts: seq<string>)
    ensures |ts| == |parts|
    ensures forall k :: 0 <= k < |parts| ==> ts[k] == PartText(parts[k])
  {
    seq(|parts|, k requires 0 <= k < |parts| => PartText(parts[k]))
  }

  /** The body as written out: the parts separated by ", ", and a leading
      ", " when the first part is a constraint (only a column may start the
      body unprefixed). */
  function Body(parts: seq<Part>): string {
    if parts == [] then ""
    else (if parts[0].Column? then "" else ", ") + Join(Texts(parts), ", ")
  }

  /** What field `i` contributes to the CREATE body: a 'field' column unless
      it is the record's last field, a 'constraint', or nothing. */
  function PartOf(fields: seq<FieldTag>, i: nat): Option<Part>
    requires i < |fields|
  {
    var f := fields[i];
    if f.kind == "field" && i < |fields| - 1 then Some(Column(f.json, f.sql))
    else if f.kind == "table" then None
    else if f.kind == "constraint" then Some(Constraint(f.name, f.sql))
    else None
  }

  /** The parts contributed by the first `n` fields, in field order. */
  function PartsUpTo(fields: seq<FieldTag>, n: nat): seq<Part>
    requires n <= |fields|
  {
    if n == 0 then []
    else
      var p := PartOf(fields, n - 1);
      PartsUpTo(fields, n - 1) + if p.Some? then [p.value] else []
  }

  function Parts(fields: seq<FieldTag>): seq<Part> {
    PartsUpTo(fields, |fields|)
  }

  /** The table's name: the `name` tag of the last 'table' field among the
      first `n`, or "" when there is none. */
  function TableNameUpTo(fields: seq<FieldTag>, n: nat): (r: string)
    requires n <= |fields|
    ensures (forall k :: 0 <= k < n ==> fields[k].kind != "table") ==> r == ""
    ensures (exists k :: 0 <= k < n && fields[k].kind == "table") ==>
      exists k :: 0 <= k < n && fields[k].kind == "table" && fields[k].name == r &&
        forall j :: k < j < n ==> fields[j].kind != "table"
  {
    if n == 0 then ""
    else if fields[n - 1].kind == "table" then fields[n - 1].name
    else TableNameUpTo(fields, n - 1)
  }

  function TableName(fields: seq<FieldTag>): string {
    TableNameUpTo(fields, |fields|)
  }

  function CreateSql(fields: seq<FieldTag>): string {
    "CREATE TABLE IF NOT EXISTS " + TableName(fields) + " ( " + Body(Parts(fields)) + ");"
  }

  /** A 'field' whose definition is not a primary key and that has a json
      name gets an ALTER statement (the last field included). */
  predicate Altered(f: FieldTag) {
    f.kind == "field" && !Contains(f.sql + " ;", "PRIMARY KEY") && f.json != ""
  }

  function AlterSql(table: string, f: FieldTag): string {
    "ALTER TABLE IF EXISTS " + table + " ADD IF NOT EXISTS " + f.json + " " + f.sql + " ;"
  }

  /** The ALTER statements for the first `n` fields, in field order. */
  function AltersUpTo(fields: seq<FieldTag>, table: string, n: nat): seq<string>
    requires n <= |fields|
  {
    if n == 0 then []
    else AltersUpTo(fields, table, n - 1) + if Altered(fields[n - 1]) then [AlterSql(table, fields[n - 1])] else []
  }

  function Alters(fields: seq<FieldTag>): seq<string> {
    AltersUpTo(fields, TableName(fields), |fields|)
  }

  /** The body is empty exactly when there are no parts. */
  lemma BodyEmpty(parts: seq<Part>)
    ensures Body(parts) == "" <==> parts == []
  {
    if parts != [] {
      var ts := Texts(parts);
      assert |Join(ts, ", ")| >= |ts[|ts| - 1]| > 0;
      assert |Body(parts)| > 0;
    }
  }

  lemma TextsAppend(parts: seq<Part>, p: Part)
    ensures Texts(parts + [p]) == Texts(parts) + [PartText(p)]
  {
  }

  /** Appending a part: a column starts an empty body as it is, every other
      part is appended after ", ". */
  lemma {:induction false} BodyStep(parts: seq<Part>, p: Part)
    ensures Body(parts + [p]) ==
      if parts == [] && p.Column? then PartText(p) else Body(parts) + ", " + PartText(p)
  {
    var ps := parts + [p];
    var pt := PartText(p);
    TextsAppend(parts, p);
    JoinStep(Texts(parts), ", ", pt);
    if parts == [] {
      assert ps[0] == p;
      assert Join(Texts(ps), ", ") == pt;
    } else {
      assert ps[0] == parts[0];
      var pre := if parts[0].Column? then "" else ", ";
      assert Body(ps) == pre + (Join(Texts(parts), ", ") + ", " + pt);
      Reassociate(pre, Join(Texts(parts), ", "), ", ", pt);
    }
  }

  lemma Reassociate(a: string, b: string, c: string, d: string)
    ensures a + (b + c + d) == a + b + c + d
  {
  }

  /** CreateFromStruct: build the CREATE body and find the table name in one
      pass, issue the CREATE, and return its error without issuing any ALTER;
      otherwise issue one ALTER per altered field.  `createRefused` is the
      CREATE's error; an ALTER's error is only logged, so whatever the
      ALTERs answer the result is Success.  `issued` lists the statements
      sent, in order. */
  method CreateFromStruct(fields: seq<FieldTag>, createRefused: bool)
    returns (err: Status, issued: seq<string>)
    ensures createRefused ==> err.Failure? && issued == [CreateSql(fields)]
    ensures !createRefused ==> err == Success && issued == [CreateSql(fields)] + Alters(fields)
  {
    var body, table := CreateBody(fields);
    var create := "CREATE TABLE IF NOT EXISTS " + table + " ( " + body + ");";
    if createRefused {
      return Failure("error creating '" + table + "' table"), [create];
    }
    var alters := IssueAlters(fields, table);
    return Success, [create] + alters;
  }

  /** BodyStep in the terms of the loop below: what appending a column does to the body text. */
  lemma BodyAddColumn(parts: seq<Part>, body: string, column: string, def: string)
    requires body == Body(parts)
    ensures Body(parts + [Column(column, def)]) ==
      if body == "" then column + " " + def + "\n\t" else body + ", " + (column + " " + def + "\n\t")
  {
    BodyEmpty(parts);
    BodyStep(parts, Column(column, def));
  }

  lemma BodyAddConstraint(parts: seq<Part>, body: string, name: string, def: string)
    requires body == Body(parts)
    ensures Body(parts + [Constraint(name, def)]) == body + ", " + ("CONSTRAINT " + name + " " + def + "\n\t")
  {
    BodyStep(parts, Constraint(name, def));
  }

  /** The three tag kinds are different words. */
  lemma KindsDistinct()
    ensures "field" != "table" && "field" != "constraint" && "table" != "constraint"
  {
    assert "field"[0] == 'f' && "table"[0] == 't' && "constraint"[0] == 'c';
  }

  /** What field `i` adds to the parts, case by case as the first loop tests it. */
  lemma PartsStep(fields: seq<FieldTag>, i: nat)
    requires i < |fields|
    ensures var f := fields[i];
      if f.kind == "field" && i < |fields| - 1 then
        PartsUpTo(fields, i + 1) == PartsUpTo(fields, i) + [Column(f.json, f.sql)]
      else if f.kind != "table" && f.kind == "constraint" then
        PartsUpTo(fields, i + 1) == PartsUpTo(fields, i) + [Constraint(f.name, f.sql)]
      else
        PartsUpTo(fields, i + 1) == PartsUpTo(fields, i)
  {
    KindsDistinct();
  }

  /** The first loop of CreateFromStruct: the body and the table name. */
  method CreateBody(fields: seq<FieldTag>) returns (body: string, table: string)
    ensures body == Body(Parts(fields)) && table == TableName(fields)
  {
    body, table := "", "";
    var i := 0;
    while i < |fields|
      invariant 0 <= i <= |fields|
      invariant body == Body(PartsUpTo(fields, i))
      invariant table == TableNameUpTo(fields, i)
    {
      var f := fields[i];
      ghost var parts := PartsUpTo(fields, i);
      PartsStep(fields, i);
      if f.kind == "field" && i < |fields| - 1 {
        BodyAddColumn(parts, body, f.json, f.sql);
        if body == "" {
          body := f.json + " " + f.sql + "\n\t";
        } else {
          body := body + ", " + (f.json + " " + f.sql + "\n\t");
        }
      } else if f.kind == "table" {
        table := f.name;
      } else if f.kind == "constraint" {
        BodyAddConstraint(parts, body, f.name, f.sql);
        body := body + ", " + ("CONSTRAINT " + f.name + " " + f.sql + "\n\t");
      }
      i := i + 1;
    }
  }

  /** The second loop of CreateFromStruct: one ALTER per altered field; an
      ALTER's error is logged and the loop goes on, so no error is returned. */
  method IssueAlters(fields: seq<FieldTag>, table: string) returns (issued: seq<string>)
    ensures issued == AltersUpTo(fields, table, |fields|)
  {
    issued := [];
    var j := 0;
    while j < |fields|
      invariant 0 <= j <= |fields|
      invariant issued == AltersUpTo(fields, table, j)
    {
      var f := fields[j];
      assert AltersUpTo(fields, table, j + 1) ==
        AltersUpTo(fields, table, j) + if Altered(f) then [AlterSql(table, f)] else [];
      if f.kind == "field" {
        var def := f.sql + " ;";
        if !Contains(def, "PRIMARY KEY") && f.json != "" {
          var alter := "ALTER TABLE IF EXISTS " + table + " ADD IF NOT EXISTS " + f.json + " " + def;
          assert alter == AlterSql(table, f);
          issued := issued + [alter];
        }
      }
      j := j + 1;
    }
  }

  /** A column is in the CREATE body exactly when some 'field' other than the
      record's last one declares it. */
  lemma {:induction false} ColumnsUpTo(fields: seq<FieldTag>, n: nat, c: string, d: string)
    requires n <= |fields|
    ensures Column(c, d) in PartsUpTo(fields, n) <==>
      exists i :: 0 <= i < n && i < |fields| - 1 && fields[i].kind == "field" && fields[i].json == c && fields[i].sql == d
  {
    if n > 0 {
      ColumnsUpTo(fields, n - 1, c, d);
    }
  }

  lemma CreateListsColumns(fields: seq<FieldTag>, c: string, d: string)
    ensures Column(c, d) in Parts(fields) <==>
      exists i :: 0 <= i < |fields| - 1 && fields[i].kind == "field" && fields[i].json == c && fields[i].sql == d
  {
    ColumnsUpTo(fields, |fields|, c, d);
  }

  /** A constraint is in the CREATE body exactly when a 'constraint' field declares it. */
  lemma {:induction false} ConstraintsUpTo(fields: seq<FieldTag>, n: nat, name: string, d: string)
    requires n <= |fields|
    ensures Constraint(name, d) in PartsUpTo(fields, n) <==>
      exists i :: 0 <= i < n && fields[i].kind == "constraint" && fields[i].name == name && fields[i].sql == d
  {
    if n > 0 {
      ConstraintsUpTo(fields, n - 1, name, d);
    }
  }

  lemma CreateListsConstraints(fields: seq<FieldTag>, name: string, d: string)
    ensures Constraint(name, d) in Parts(fields) <==>
      exists i :: 0 <= i < |fields| && fields[i].kind == "constraint" && fields[i].name == name && fields[i].sql == d
  {
    ConstraintsUpTo(fields, |fields|, name, d);
  }

  /** An ALTER is issued exactly for the altered fields, the last one included. */
  lemma {:induction false} AltersUpToListed(fields: seq<FieldTag>, table: string, n: nat, s: string)
    requires n <= |fields|
    ensures s in AltersUpTo(fields, table, n) <==>
      exists i :: 0 <= i < n && Altered(fields[i]) && s == AlterSql(table, fields[i])
  {
    if n > 0 {
      AltersUpToListed(fields, table, n - 1, s);
    }
  }

  lemma AltersListed(fields: seq<FieldTag>, s: string)
    ensures s in Alters(fields) <==>
      exists i :: 0 <= i < |fields| && Altered(fields[i]) && s == AlterSql(TableName(fields), fields[i])
  {
    AltersUpToListed(fields, TableName(fields), |fields|, s);
  }

  /** The last field never reaches the CREATE body, but an ALTER adds it. */
  lemma LastFieldAddedByAlter(fields: seq<FieldTag>)
    requires |fields| > 0 && Altered(fields[|fields| - 1])
    ensures AlterSql(TableName(fields), fields[|fields| - 1]) in Alters(fields)
  {
    AltersListed(fields, AlterSql(TableName(fields), fields[|fields| - 1]));
  }
}
