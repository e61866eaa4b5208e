/**
 * The admin listing-order rule of `pre_get_posts`: on the main admin query for
 * this post type, when the type supports page attributes, list by menu order
 * ascending unless the request already chose an order or a sort key.
 */
module AdminOrder {
  import opened Php
  import WordPress

  const PageAttributes: string := "page-attributes"

  /** The four-part guard: main query, admin screen, this post type, page attributes supported. */
  predicate Applies(postType: string, isMainQuery: bool, isAdmin: bool, supportsPageAttributes: bool, vars: Array)
  {
    isMainQuery && isAdmin && WordPress.QueryVar(vars, "post_type") == Str(postType) && supportsPageAttributes
  }

  /**
   * `field` of the query vars goes from `before` to `after`: set to `value` when
   * the rule is `active` and the request left `field` empty, untouched otherwise.
   */
  predicate SetIfUnset(active: bool, request: Array, before: Array, after: Array, field: string, value: Value)
  {
    if active && IsEmptyAt(request, field) then field in after && after[field] == value
    else (field in after <==> field in before) && (field in before ==> after[field] == before[field])
  }

  /** No query var outside `fields` is added, removed or changed. */
  ghost predicate OnlyChanged(before: Array, after: Array, fields: set<string>)
  {
    forall k :: k !in fields ==> (k in after <==> k in before) && (k in before ==> after[k] == before[k])
  }

  /**
   * The query vars after the rule runs on a query whose raw request is `request`
   * and whose vars are `vars`. Nothing changes unless the guard holds; then
   * `order` becomes `ASC` and `orderby` becomes `menu_order`, each only when the
   * request left it empty, and no other var is touched.
   */
  function OrderedVars(postType: string, isMainQuery: bool, isAdmin: bool, supportsPageAttributes: bool,
                       request: Array, vars: Array): (r: Array)
    ensures !Applies(postType, isMainQuery, isAdmin, supportsPageAttributes, vars) ==> r == vars
    ensures SetIfUnset(Applies(postType, isMainQuery, isAdmin, supportsPageAttributes, vars),
                       request, vars, r, "order", Str("ASC"))
    ensures SetIfUnset(Applies(postType, isMainQuery, isAdmin, supportsPageAttributes, vars),
                       request, vars, r, "orderby", Str("menu_order"))
    ensures OnlyChanged(vars, r, {"order", "orderby"})
  {
    if Applies(postType, isMainQuery, isAdmin, supportsPageAttributes, vars) then
      var ordered := if IsEmptyAt(request, "order") then vars["order" := Str("ASC")] else vars;
      if IsEmptyAt(request, "orderby") then ordered["orderby" := Str("menu_order")] else ordered
    else
      vars
  }

  /** An order or sort key the request states explicitly is never overridden. */
  lemma ExplicitOrderKept(postType: string, isMainQuery: bool, isAdmin: bool,
                                             supportsPageAttributes: bool, request: Array, vars: Array, field: string)
    requires field == "order" || field == "orderby"
    requires !IsEmptyAt(request, field)
    ensures var r := OrderedVars(postType, isMainQuery, isAdmin, supportsPageAttributes, request, vars);
      (field in r <==> field in vars) && (field in vars ==> r[field] == vars[field])
  {
  }

  /** Running the rule a second time on its own output changes nothing. */
  lemma OrderedVarsIdempotent(postType: string, isMainQuery: bool, isAdmin: bool,
                                                 supportsPageAttributes: bool, request: Array, vars: Array)
    ensures var once := OrderedVars(postType, isMainQuery, isAdmin, supportsPageAttributes, request, vars);
      OrderedVars(postType, isMainQuery, isAdmin, supportsPageAttributes, request, once) == once
  {
  }

  /**
   * A null `post_type` var reads as `''`, exactly like an unset one, so the
   * guard compares the slug with the empty string in both cases.
   */
  lemma NullPostTypeReadsAsUnset(postType: string, isMainQuery: bool, isAdmin: bool,
                                 supportsPageAttributes: bool, vars: Array)
    requires "post_type" in vars && vars["post_type"].Null?
    ensures Applies(postType, isMainQuery, isAdmin, supportsPageAttributes, vars)
        <==> Applies(postType, isMainQuery, isAdmin, supportsPageAttributes, vars - {"post_type"})
    ensures Applies(postType, isMainQuery, isAdmin, supportsPageAttributes, vars)
        <==> isMainQuery && isAdmin && postType == "" && supportsPageAttributes
  {
  }
}
