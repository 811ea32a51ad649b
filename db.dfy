/**
 * The database interface the models use: one current prepared statement,
 * parameters bound to it by name, then execute and fetch. What the store
 * answers (the rows of a query, whether a statement succeeds, the last
 * inserted id) is abstract; the model records every executed statement, in
 * order, so that the statements a model method issues can be stated.
 */
module Db {
  import opened Php

  /** A prepared SQL text and its bound parameters, in binding order. */
  datatype Statement = Statement(sql: string, binds: seq<(string, Value)>)

  /** bind() without a type: null is bound as '' (the PDO parameter type is not modelled). */
  function Bound(v: Value): Value { if v == Null then Str("") else v }

  /** The store's answers. */
  datatype Store = Store(
    /** fetchAll() after executing the statement */
    rows: Statement -> seq<Value>,
    /** execute() */
    succeeds: Statement -> bool,
    /** lastInsertId() after the statements executed so far */
    lastInsertId: seq<Statement> -> Value)

  /** fetch(): the first row, or false when there is none. */
  function FirstRow(store: Store, s: Statement): Value
  {
    var rows := store.rows(s);
    if rows == [] then Bool(false) else rows[0]
  }

  class Database {
    const store: Store
    var current: Statement
    var executed: seq<Statement>

    constructor (store: Store)
      ensures this.store == store && current == Statement("", []) && executed == []
    {
      this.store := store;
      current := Statement("", []);
      executed := [];
    }

    method Prepare(sql: string)
      modifies this
      ensures current == Statement(sql, []) && executed == old(executed)
    {
      current := Statement(sql, []);
    }

    /** bind($param, $value): a second bind of the same name replaces the value. */
    method Bind(name: string, value: Value)
      modifies this
      ensures current == old(current).(binds := Put(old(current).binds, name, Bound(value)))
      ensures executed == old(executed)
    {
      current := current.(binds := Put(current.binds, name, Bound(value)));
    }

    method Execute() returns (ok: bool)
      modifies this
      ensures executed == old(executed) + [current] && current == old(current)
      ensures ok == store.succeeds(current)
    {
      executed := executed + [current];
      ok := store.succeeds(current);
    }

    method FetchAll() returns (rows: seq<Value>)
      ensures rows == store.rows(current)
    {
      rows := store.rows(current);
    }

    method Fetch() returns (row: Value)
      ensures row == FirstRow(store, current)
    {
      row := FirstRow(store, current);
    }

    method LastInsertId() returns (id: Value)
      ensures id == store.lastInsertId(executed)
    {
      id := store.lastInsertId(executed);
    }
  }
}
