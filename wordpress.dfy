/**
 * The host calls the post-type classes make, seen from outside: registration
 * and hook subscription are recorded in a call log; whether the request is an
 * admin screen and which features each post type supports are fixed inputs.
 */
module WordPress {
  import opened Php

  /** One call into the host. A subscribed callback is named by its hook and the post type it serves. */
  datatype Call =
    | RegisterPostType(postType: string, args: Array)
    | AddAction(hook: string, callbackPostType: string)

  /**
   * `WP_Query::get($key)`: the query var, or the default `''` when it is unset
   * or null (the host tests it with `isset`).
   */
  function QueryVar(vars: Array, key: string): Value
  {
    if key in vars && !vars[key].Null? then vars[key] else Str("")
  }

  /** The hook the listing-order callback is subscribed to. */
  const PreGetPostsHook: string := "pre_get_posts"

  class Host {
    var calls: seq<Call>
    const isAdmin: bool
    const features: map<string, set<string>>

    constructor (isAdmin: bool, features: map<string, set<string>>)
      ensures calls == [] && this.isAdmin == isAdmin && this.features == features
    {
      calls := [];
      this.isAdmin := isAdmin;
      this.features := features;
    }

    /** `post_type_supports($postType, $feature)`. */
    predicate PostTypeSupports(postType: string, feature: string)
    {
      postType in features && feature in features[postType]
    }

    /** `register_post_type($postType, $args)`. */
    method RegisterPostType(postType: string, args: Array)
      modifies this
      ensures calls == old(calls) + [Call.RegisterPostType(postType, args)]
    {
      calls := calls + [Call.RegisterPostType(postType, args)];
    }

    /** `add_action($hook, [$instance, 'pre_get_posts'])` for the instance serving `postType`. */
    method AddAction(hook: string, callbackPostType: string)
      modifies this
      ensures calls == old(calls) + [Call.AddAction(hook, callbackPostType)]
    {
      calls := calls + [Call.AddAction(hook, callbackPostType)];
    }
  }

  /** A `WP_Query`: the raw request `query`, read by the rule, and the query vars it writes. */
  class Query {
    const isMainQuery: bool
    const query: Array
    var queryVars: Array

    constructor (isMainQuery: bool, query: Array, queryVars: Array)
      ensures this.isMainQuery == isMainQuery && this.query == query && this.queryVars == queryVars
    {
      this.isMainQuery := isMainQuery;
      this.query := query;
      this.queryVars := queryVars;
    }

    /** `WP_Query::get($key)`. */
    function Get(key: string): Value
      reads this
    {
      QueryVar(queryVars, key)
    }

    /** `WP_Query::set($key, $value)`. */
    method Set(key: string, value: Value)
      modifies this
      ensures queryVars == old(queryVars)[key := value]
    {
      queryVars := queryVars[key := value];
    }
  }
}
