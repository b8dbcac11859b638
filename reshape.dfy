/**
 * The flat join row -> nested product object reshaping that product.js,
 * laboratory.js and reg_san.js each write out: the product columns stay at
 * the top, the columns of each joined lookup table become a nested object.
 * product.js also copies the `tipo` column; the other two omit it.
 */
module Reshape {
  import opened Js

  /** The row columns the reshaping reads. */
  function Columns(withTipo: bool): set<string> {
    {"idP", "nombreP", "concent", "idTP", "desTP", "idTP2", "desTP2", "fracciones",
     "idREG", "codigo", "vencimiento", "idLAB", "nombreLAB", "idPRE", "desPRE", "estado"}
    + (if withTipo then {"tipo"} else {})
  }

  /** The top-level keys of a reshaped product. */
  function ProductKeys(withTipo: bool): set<string> {
    {"id", "nombre", "concentracion", "tipo_presentacion", "tipo_presentacion_simple",
     "fracciones", "registro_sanitario", "laboratorio", "presentacion", "estado"}
    + (if withTipo then {"tipo"} else {})
  }

  /** `{id, <key>}` of a joined lookup table: `descripcion` for the presentation tables, `nombre` for the laboratory. */
  function IdWith(key: string, id: Value, other: Value): (v: Value)
    requires key != "id"
    ensures Field(v, "id") == id && Field(v, key) == other
  {
    Obj(map["id" := id, key := other])
  }

  /** `{id, codigo, vencimiento}` of the joined sanitary registration. */
  function Registration(id: Value, codigo: Value, vencimiento: Value): (v: Value)
    ensures Field(v, "id") == id && Field(v, "codigo") == codigo && Field(v, "vencimiento") == vencimiento
  {
    Obj(map["id" := id, "codigo" := codigo, "vencimiento" := vencimiento])
  }

  /** The ten keys every router sends, before `tipo`. */
  function ProductFields(row: Value): map<string, Value> {
    map[
      "id" := Field(row, "idP"),
      "nombre" := Field(row, "nombreP"),
      "concentracion" := Field(row, "concent"),
      "tipo_presentacion" := IdWith("descripcion", Field(row, "idTP"), Field(row, "desTP")),
      "tipo_presentacion_simple" := IdWith("descripcion", Field(row, "idTP2"), Field(row, "desTP2")),
      "fracciones" := Field(row, "fracciones"),
      "registro_sanitario" := Registration(Field(row, "idREG"), Field(row, "codigo"), Field(row, "vencimiento")),
      "laboratorio" := IdWith("nombre", Field(row, "idLAB"), Field(row, "nombreLAB")),
      "presentacion" := IdWith("descripcion", Field(row, "idPRE"), Field(row, "desPRE")),
      "estado" := Field(row, "estado")]
  }

  /** The ten shared keys are exactly the keys of the shared fields. */
  lemma FieldKeys(row: Value)
    ensures ProductFields(row).Keys == ProductKeys(false)
  {}

  /** One row as the nested object pushed onto `ans`. */
  function ShapeProduct(row: Value, withTipo: bool): Value {
    Obj(if withTipo then ProductFields(row)["tipo" := Field(row, "tipo")] else ProductFields(row))
  }

  /** The nested product has exactly the ten product keys, plus `tipo` when the router copies it. */
  lemma ShapeKeys(row: Value, withTipo: bool)
    ensures var o := ShapeProduct(row, withTipo);
      o.Obj? && o.fields.Keys == ProductKeys(withTipo) && ("tipo" in o.fields <==> withTipo)
  {
    FieldKeys(row);
    assert "tipo" !in ProductKeys(false);
  }

  /** Adding `tipo` leaves the ten shared keys as they were. */
  lemma KeptField(row: Value, withTipo: bool, key: string)
    requires key in ProductKeys(false)
    ensures Field(ShapeProduct(row, withTipo), key) == ProductFields(row)[key]
  {
    FieldKeys(row);
    assert "tipo" !in ProductKeys(false);
  }

  /** A map from the sixteen shared row columns to the given values. */
  function ColumnMap(idP: Value, nombreP: Value, concent: Value, idTP: Value, desTP: Value,
                     idTP2: Value, desTP2: Value, fracciones: Value, idREG: Value, codigo: Value,
                     vencimiento: Value, idLAB: Value, nombreLAB: Value, idPRE: Value, desPRE: Value,
                     estado: Value): (m: map<string, Value>)
    ensures m.Keys == Columns(false)
  {
    map["idP" := idP, "nombreP" := nombreP, "concent" := concent,
        "idTP" := idTP, "desTP" := desTP, "idTP2" := idTP2, "desTP2" := desTP2,
        "fracciones" := fracciones,
        "idREG" := idREG, "codigo" := codigo, "vencimiento" := vencimiento,
        "idLAB" := idLAB, "nombreLAB" := nombreLAB, "idPRE" := idPRE, "desPRE" := desPRE,
        "estado" := estado]
  }

  /** The inverse reading: where each row column ended up in the nested object. */
  function Flatten(o: Value): map<string, Value> {
    var tp, tps, reg := Field(o, "tipo_presentacion"), Field(o, "tipo_presentacion_simple"), Field(o, "registro_sanitario");
    var lab, pre := Field(o, "laboratorio"), Field(o, "presentacion");
    var flat := ColumnMap(Field(o, "id"), Field(o, "nombre"), Field(o, "concentracion"),
      Field(tp, "id"), Field(tp, "descripcion"), Field(tps, "id"), Field(tps, "descripcion"),
      Field(o, "fracciones"), Field(reg, "id"), Field(reg, "codigo"), Field(reg, "vencimiento"),
      Field(lab, "id"), Field(lab, "nombre"), Field(pre, "id"), Field(pre, "descripcion"),
      Field(o, "estado"));
    if o.Obj? && "tipo" in o.fields then flat["tipo" := Field(o, "tipo")] else flat
  }

  /** The columns of a row that the reshaping reads, with their values. */
  function Project(row: Value, withTipo: bool): (m: map<string, Value>)
    ensures m.Keys == Columns(withTipo)
  {
    var m := ColumnMap(Field(row, "idP"), Field(row, "nombreP"), Field(row, "concent"),
      Field(row, "idTP"), Field(row, "desTP"), Field(row, "idTP2"), Field(row, "desTP2"),
      Field(row, "fracciones"), Field(row, "idREG"), Field(row, "codigo"), Field(row, "vencimiento"),
      Field(row, "idLAB"), Field(row, "nombreLAB"), Field(row, "idPRE"), Field(row, "desPRE"),
      Field(row, "estado"));
    if withTipo then m["tipo" := Field(row, "tipo")] else m
  }

  /** The product's name columns stay at the top level of the nested object. */
  lemma ShapeNameFields(row: Value, withTipo: bool)
    ensures var o := ShapeProduct(row, withTipo);
      && Field(o, "id") == Field(row, "idP")
      && Field(o, "nombre") == Field(row, "nombreP")
      && Field(o, "concentracion") == Field(row, "concent")
  {
    var m := ProductFields(row);
    assert m["id"] == Field(row, "idP") && m["nombre"] == Field(row, "nombreP");
    assert m["concentracion"] == Field(row, "concent");
    KeptField(row, withTipo, "id");
    KeptField(row, withTipo, "nombre");
    KeptField(row, withTipo, "concentracion");
  }

  /** fracciones, estado and, when copied, tipo stay at the top level of the nested object. */
  lemma ShapeStockFields(row: Value, withTipo: bool)
    ensures var o := ShapeProduct(row, withTipo);
      && Field(o, "fracciones") == Field(row, "fracciones")
      && Field(o, "estado") == Field(row, "estado")
      && (withTipo ==> Field(o, "tipo") == Field(row, "tipo"))
  {
    var m := ProductFields(row);
    assert m["fracciones"] == Field(row, "fracciones") && m["estado"] == Field(row, "estado");
    KeptField(row, withTipo, "fracciones");
    KeptField(row, withTipo, "estado");
  }

  /** The presentation-type lookup becomes `{id, descripcion}`. */
  lemma ShapeTypeFields(row: Value, withTipo: bool)
    ensures var o := ShapeProduct(row, withTipo);
      && Field(Field(o, "tipo_presentacion"), "id") == Field(row, "idTP")
      && Field(Field(o, "tipo_presentacion"), "descripcion") == Field(row, "desTP")
  {
    assert ProductFields(row)["tipo_presentacion"] == IdWith("descripcion", Field(row, "idTP"), Field(row, "desTP"));
    KeptField(row, withTipo, "tipo_presentacion");
  }

  /** The simple presentation-type lookup becomes `{id, descripcion}`. */
  lemma ShapeSimpleTypeFields(row: Value, withTipo: bool)
    ensures var o := ShapeProduct(row, withTipo);
      && Field(Field(o, "tipo_presentacion_simple"), "id") == Field(row, "idTP2")
      && Field(Field(o, "tipo_presentacion_simple"), "descripcion") == Field(row, "desTP2")
  {
    assert ProductFields(row)["tipo_presentacion_simple"] == IdWith("descripcion", Field(row, "idTP2"), Field(row, "desTP2"));
    KeptField(row, withTipo, "tipo_presentacion_simple");
  }

  /** The registration lookup becomes `{id, codigo, vencimiento}`. */
  lemma ShapeRegistrationFields(row: Value, withTipo: bool)
    ensures var o := ShapeProduct(row, withTipo);
      && Field(Field(o, "registro_sanitario"), "id") == Field(row, "idREG")
      && Field(Field(o, "registro_sanitario"), "codigo") == Field(row, "codigo")
      && Field(Field(o, "registro_sanitario"), "vencimiento") == Field(row, "vencimiento")
  {
    assert ProductFields(row)["registro_sanitario"] == Registration(Field(row, "idREG"), Field(row, "codigo"), Field(row, "vencimiento"));
    KeptField(row, withTipo, "registro_sanitario");
  }

  /** The laboratory lookup becomes `{id, nombre}`. */
  lemma ShapeLaboratoryFields(row: Value, withTipo: bool)
    ensures var o := ShapeProduct(row, withTipo);
      && Field(Field(o, "laboratorio"), "id") == Field(row, "idLAB")
      && Field(Field(o, "laboratorio"), "nombre") == Field(row, "nombreLAB")
  {
    assert ProductFields(row)["laboratorio"] == IdWith("nombre", Field(row, "idLAB"), Field(row, "nombreLAB"));
    KeptField(row, withTipo, "laboratorio");
  }

  /** The presentation lookup becomes `{id, descripcion}`. */
  lemma ShapePresentationFields(row: Value, withTipo: bool)
    ensures var o := ShapeProduct(row, withTipo);
      && Field(Field(o, "presentacion"), "id") == Field(row, "idPRE")
      && Field(Field(o, "presentacion"), "descripcion") == Field(row, "desPRE")
  {
    assert ProductFields(row)["presentacion"] == IdWith("descripcion", Field(row, "idPRE"), Field(row, "desPRE"));
    KeptField(row, withTipo, "presentacion");
  }

  /** Reshaping loses nothing: every column it reads can be read back from the nested object. */
  lemma ShapeIsLossless(row: Value, withTipo: bool)
    ensures Flatten(ShapeProduct(row, withTipo)) == Project(row, withTipo)
  {
    ShapeKeys(row, withTipo);
    ShapeNameFields(row, withTipo);
    ShapeStockFields(row, withTipo);
    ShapeTypeFields(row, withTipo);
    ShapeSimpleTypeFields(row, withTipo);
    ShapeRegistrationFields(row, withTipo);
    ShapeLaboratoryFields(row, withTipo);
    ShapePresentationFields(row, withTipo);
  }

  /** The shaped list: one object per row, in row order. */
  function ShapeAll(rows: seq<Value>, withTipo: bool): seq<Value> {
    seq(|rows|, i requires 0 <= i < |rows| => ShapeProduct(rows[i], withTipo))
  }

  /** The `for` loop that pushes one reshaped object per row onto `ans`. */
  method ShapeRows(rows: seq<Value>, withTipo: bool) returns (ans: seq<Value>)
    ensures |ans| == |rows|
    ensures forall i :: 0 <= i < |rows| ==> ans[i] == ShapeProduct(rows[i], withTipo)
  {
    ans := [];
    var prod := 0;
    while prod < |rows|
      invariant 0 <= prod <= |rows|
      invariant |ans| == prod
      invariant forall i :: 0 <= i < prod ==> ans[i] == ShapeProduct(rows[i], withTipo)
    {
      ans := ans + [ShapeProduct(rows[prod], withTipo)];
      prod := prod + 1;
    }
  }
}
