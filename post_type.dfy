/**
 * The older post-type class: the same default label and option sets, but the
 * labels come from `args['labels']` and construction registers at once.
 */
module LegacyPostType {
  import opened Php
  import Defaults
  import AdminOrder
  import opened WordPress

  /** What the code needs of `args['labels']`: an array, or a value that is empty. */
  predicate LabelsArgIsArrayOrEmpty(args: Array)
  {
    "labels" in args ==> args["labels"].Dict? || IsEmpty(args["labels"])
  }

  /**
   * The label overrides the constructor extracts: the caller's `labels` array
   * when it is not empty, and no overrides otherwise.
   */
  function LabelOverrides(args: Array): (r: Array)
    requires LabelsArgIsArrayOrEmpty(args)
    ensures IsEmptyAt(args, "labels") <==> |r| == 0
    ensures !IsEmptyAt(args, "labels") ==> args["labels"] == Dict(r)
  {
    if !IsEmptyAt(args, "labels") then args["labels"].entries else map[]
  }

  class PostType {
    /** The post-type slug. */
    const postType: string
    /** The human-readable name the labels are built from. */
    const postTypeName: string
    var labels: Array
    var args: Array

    /**
     * Builds both dictionaries from `args` (the whole of it, `labels` key
     * included, goes to the options), registers the post type with the label
     * set under `labels`, then subscribes the listing-order callback.
     */
    constructor (postType: string, postTypeName: string, args: Array, wp: Host)
      requires Defaults.RewriteIsArrayOrEmpty(args) && LabelsArgIsArrayOrEmpty(args)
      modifies wp
      ensures this.postType == postType && this.postTypeName == postTypeName
      ensures labels == CreateLabels(LabelOverrides(args))
      ensures this.args == Defaults.RegistrationArgs(CreateOptions(args), labels)
      ensures wp.calls == old(wp.calls) + [Call.RegisterPostType(postType, this.args),
                                          Call.AddAction(PreGetPostsHook, postType)]
    {
      this.postType := postType;
      this.postTypeName := postTypeName;
      new;
      SetLabels(LabelOverrides(args));
      SetOptions(args);
      Register(wp);
    }

    /** Registers the post type, then subscribes the listing-order callback. */
    method Register(wp: Host)
      modifies this`args, wp
      ensures labels == old(labels)
      ensures args == Defaults.RegistrationArgs(old(args), labels)
      ensures wp.calls == old(wp.calls) + [Call.RegisterPostType(postType, args),
                                          Call.AddAction(PreGetPostsHook, postType)]
    {
      RegisterPostType(wp);
      wp.AddAction(PreGetPostsHook, postType);
    }

    /** Replaces the label set wholesale, from the name and the argument alone. */
    method SetLabels(overrides: Array)
      modifies this`labels
      ensures labels == CreateLabels(overrides)
    {
      labels := CreateLabels(overrides);
    }

    /** `create_labels`: the default label set for this post type's name under `overrides`. */
    function CreateLabels(overrides: Array): (r: Array)
      ensures Defaults.IsLabelSet(postTypeName, overrides, r)
    {
      Defaults.CreateLabels(postTypeName, overrides)
    }

    /** Replaces the option set wholesale, from the slug and the argument alone. */
    method SetOptions(overrides: Array)
      requires Defaults.RewriteIsArrayOrEmpty(overrides)
      modifies this`args
      ensures args == CreateOptions(overrides)
    {
      args := CreateOptions(overrides);
    }

    /** `create_options`: the default option set for this slug under `overrides`. */
    function CreateOptions(overrides: Array): (r: Array)
      requires Defaults.RewriteIsArrayOrEmpty(overrides)
      ensures Defaults.IsOptionSet(postType, overrides, r)
    {
      Defaults.CreateOptions(postType, overrides)
    }

    /** Stores the label set under `labels` in the options and hands them to the host. */
    method RegisterPostType(wp: Host)
      modifies this`args, wp
      ensures labels == old(labels)
      ensures args == Defaults.RegistrationArgs(old(args), labels)
      ensures wp.calls == old(wp.calls) + [Call.RegisterPostType(postType, args)]
    {
      args := args["labels" := Dict(labels)];
      wp.RegisterPostType(postType, args);
    }

    /** The listing-order callback: changes the query vars exactly as `AdminOrder.OrderedVars` says. */
    method PreGetPosts(q: Query, wp: Host)
      modifies q
      ensures q.queryVars == AdminOrder.OrderedVars(postType, q.isMainQuery, wp.isAdmin,
                                                     wp.PostTypeSupports(postType, AdminOrder.PageAttributes),
                                                     q.query, old(q.queryVars))
    {
      if q.isMainQuery && wp.isAdmin {
        if q.Get("post_type") == Str(postType) {
          if wp.PostTypeSupports(postType, AdminOrder.PageAttributes) {
            if IsEmptyAt(q.query, "order") {
              q.Set("order", Str("ASC"));
            }
            if IsEmptyAt(q.query, "orderby") {
              q.Set("orderby", Str("menu_order"));
            }
          }
        }
      }
    }
  }

  /**
   * Whatever `labels` the caller passed, the registered `labels` is the computed
   * label set; a non-empty caller array survives inside it key by key, and the
   * default keys it leaves out are still filled in.
   */
  lemma RegisteredLabels(postType: string, postTypeName: string, args: Array)
    requires Defaults.RewriteIsArrayOrEmpty(args) && LabelsArgIsArrayOrEmpty(args)
    ensures var labels := Defaults.CreateLabels(postTypeName, LabelOverrides(args));
      var registered := Defaults.RegistrationArgs(Defaults.CreateOptions(postType, args), labels);
      && registered["labels"].Dict?
      && Defaults.LabelKeys <= registered["labels"].entries.Keys
      && (!IsEmptyAt(args, "labels") ==>
            forall k :: k in args["labels"].entries ==> registered["labels"].entries[k] == args["labels"].entries[k])
  {
  }
}
