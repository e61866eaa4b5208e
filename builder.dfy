/**
 * The current post-type builder: it keeps a slug and a human label, the label
 * set and the option set derived from them, and on `create()` registers the
 * post type and subscribes the admin listing-order rule.
 */
module PostTypeBuilder {
  import opened Php
  import Defaults
  import AdminOrder
  import opened WordPress

  class Builder {
    /** The post-type slug. */
    const name: string
    /** The human-readable name the labels are built from. */
    const labelName: string
    var labels: Array
    var args: Array

    /** Both dictionaries start as the defaults. */
    constructor (name: string, labelName: string)
      ensures this.name == name && this.labelName == labelName
      ensures labels == Defaults.CreateLabels(labelName, map[])
      ensures args == Defaults.CreateOptions(name, map[])
    {
      this.name := name;
      this.labelName := labelName;
      new;
      SetLabels(map[]);
      SetOptions(map[]);
    }

    /** Registers the post type, then subscribes the listing-order callback. */
    method Create(wp: Host)
      modifies this`args, wp
      ensures labels == old(labels)
      ensures args == Defaults.RegistrationArgs(old(args), labels)
      ensures wp.calls == old(wp.calls) + [Call.RegisterPostType(name, args), Call.AddAction(PreGetPostsHook, name)]
    {
      RegisterPostType(wp);
      wp.AddAction(PreGetPostsHook, name);
    }

    /**
     * Replaces the label set wholesale: the new value depends on the label
     * and the argument alone, so a repeated call leaves the same state as one.
     */
    method SetLabels(overrides: Array)
      modifies this`labels
      ensures labels == Defaults.CreateLabels(labelName, overrides)
    {
      labels := Defaults.CreateLabels(labelName, overrides);
    }

    /** Replaces the option set wholesale, from the slug and the argument alone. */
    method SetOptions(overrides: Array)
      requires Defaults.RewriteIsArrayOrEmpty(overrides)
      modifies this`args
      ensures args == Defaults.CreateOptions(name, overrides)
    {
      args := Defaults.CreateOptions(name, overrides);
    }

    /** Stores the label set under `labels` in the options and hands them to the host. */
    method RegisterPostType(wp: Host)
      modifies this`args, wp
      ensures labels == old(labels)
      ensures args == Defaults.RegistrationArgs(old(args), labels)
      ensures wp.calls == old(wp.calls) + [Call.RegisterPostType(name, args)]
    {
      args := args["labels" := Dict(labels)];
      wp.RegisterPostType(name, args);
    }

    /** The listing-order callback: changes the query vars exactly as `AdminOrder.OrderedVars` says. */
    method PreGetPosts(q: Query, wp: Host)
      modifies q
      ensures q.queryVars == AdminOrder.OrderedVars(name, q.isMainQuery, wp.isAdmin,
                                                     wp.PostTypeSupports(name, AdminOrder.PageAttributes),
                                                     q.query, old(q.queryVars))
    {
      if q.isMainQuery && wp.isAdmin {
        if q.Get("post_type") == Str(name) {
          if wp.PostTypeSupports(name, AdminOrder.PageAttributes) {
            if IsEmptyAt(q.query, "order") {
              q.Set("order", Str("ASC"));
            }
            if IsEmptyAt(q.query, "orderby") {
              q.Set("orderby", Str("menu_order"));
            }
          }
        }
      }
    }
  }

  /** The options the package's usage example passes to `set_options`. */
  const BookOptions: Array := map["public" := Bool(true), "description" := Str("post_type_for_test")]

  /** The facts about the example's options that the scenario relies on. */
  lemma BookOptionsShape()
    ensures Defaults.RewriteIsArrayOrEmpty(BookOptions)
    ensures "has_archive" !in BookOptions && "rest_base" !in BookOptions && "labels" !in BookOptions
    ensures "public" in BookOptions && BookOptions["public"] == Bool(true)
    ensures "description" in BookOptions && BookOptions["description"] == Str("post_type_for_test")
  {
  }

  /** What the usage example expects of the registered arguments. */
  predicate BookExpectations(registered: Array)
  {
    && "public" in registered && registered["public"] == Bool(true)
    && "description" in registered && registered["description"] == Str("post_type_for_test")
    && "has_archive" in registered && registered["has_archive"] == Bool(true)
    && "labels" in registered && registered["labels"].Dict?
    && "name" in registered["labels"].entries && registered["labels"].entries["name"] == Str("Book")
    && "rest_base" !in registered
  }

  /**
   * Registered arguments built from options the caller chose without
   * `has_archive` or `rest_base`: the caller's options survive, the archive
   * default survives, the name label is the label, and no `rest_base` key
   * appears, since nothing derives a plural REST base.
   */
  lemma RegisteredDefaults(slug: string, labelName: string, overrides: Array)
    requires Defaults.RewriteIsArrayOrEmpty(overrides)
    requires "has_archive" !in overrides && "rest_base" !in overrides && "labels" !in overrides
    ensures var r := Defaults.RegistrationArgs(Defaults.CreateOptions(slug, overrides),
                                               Defaults.CreateLabels(labelName, map[]));
      && (forall k :: k in overrides && k != "rewrite" ==> k in r && r[k] == overrides[k])
      && "has_archive" in r && r["has_archive"] == Bool(true)
      && r["labels"] == Dict(Defaults.CreateLabels(labelName, map[]))
      && "name" in r["labels"].entries && r["labels"].entries["name"] == Str(labelName)
      && "rest_base" !in r
  {
    var options := Defaults.CreateOptions(slug, overrides);
    var labels := Defaults.CreateLabels(labelName, map[]);
    assert options["has_archive"] == Defaults.DefaultOption(slug, "has_archive");
    assert labels["name"] == Str(Defaults.DefaultLabel(labelName, "name"));
    RestBaseIsNoDefault();
    assert "rest_base" !in options.Keys;
  }

  /** `rest_base` is not one of the default option keys. */
  lemma RestBaseIsNoDefault()
    ensures "rest_base" !in Defaults.OptionKeys
  {
  }

  /**
   * The package's usage example, for any slug, label and options: construct a
   * builder, replace its options, then create it. `registered` is what the host
   * was handed: the options merged over the defaults, with the default label
   * set under `labels`.
   */
  method BuildAndCreate(name: string, labelName: string, options: Array) returns (registered: Array)
    requires Defaults.RewriteIsArrayOrEmpty(options)
    ensures registered == Defaults.RegistrationArgs(Defaults.CreateOptions(name, options),
                                                    Defaults.CreateLabels(labelName, map[]))
  {
    var wp := new Host(false, map[]);
    var builder := new Builder(name, labelName);
    builder.SetOptions(options);
    builder.Create(wp);
    assert wp.calls[0] == Call.RegisterPostType(name, builder.args);
    registered := wp.calls[0].args;
  }

  /**
   * The usage example's own case, `book` labelled `Book` made public with a
   * description: the arguments the host receives meet the example's expectations,
   * and hold no `rest_base`.
   */
  lemma BookRegistered()
    ensures BookExpectations(Defaults.RegistrationArgs(Defaults.CreateOptions("book", BookOptions),
                                                       Defaults.CreateLabels("Book", map[])))
  {
    BookOptionsShape();
    RegisteredDefaults("book", "Book", BookOptions);
  }
}
