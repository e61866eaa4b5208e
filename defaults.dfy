/**
 * The default label set and option set of a post type, and how a caller's
 * overrides are laid over them. Both post-type classes build these the same way;
 * they differ only in where the slug and the human label come from.
 */
module Defaults {
  import opened Php

  // ---------------------------------------------------------------------------
  // Labels
  // ---------------------------------------------------------------------------

  /** The thirteen keys of the default label set. */
  const LabelKeys: set<string> :=
    {"name", "singular_name", "all_items", "add_new", "add_new_item", "edit_item", "new_item",
     "view_item", "search_items", "not_found", "not_found_in_trash", "menu_name", "archives"}

  /** The labels that are the human label itself. */
  const PlainLabelKeys: set<string> := {"name", "singular_name", "menu_name", "archives"}

  /** The one label that does not mention the post type ("Add new"). */
  const AddNew: string := "新規追加"

  /** The default text of one label key, built from the human label with a fixed Japanese phrase. */
  function DefaultLabel(labelName: string, key: string): string
  {
    if key in PlainLabelKeys then labelName
    else if key == "add_new" then AddNew
    else if key == "all_items" then labelName + "一覧"
    else if key == "add_new_item" then labelName + "を追加"
    else if key == "edit_item" then labelName + "を編集"
    else if key == "new_item" then "新しい" + labelName
    else if key == "view_item" then labelName + "を表示"
    else if key == "search_items" then labelName + "を検索"
    else if key == "not_found" then labelName + "が見つかりませんでした。"
    else "ゴミ箱の中から、" + labelName + "が見つかりませんでした。"  // not_found_in_trash
  }

  /** The default label set. */
  function DefaultLabels(labelName: string): Array
  {
    map k | k in LabelKeys :: Str(DefaultLabel(labelName, k))
  }

  /**
   * `r` is the label set for `labelName` under `overrides`: it covers every
   * default key and every caller key, a caller key wins outright, and every
   * other key keeps its default text.
   */
  predicate IsLabelSet(labelName: string, overrides: Array, r: Array)
  {
    && r.Keys == LabelKeys + overrides.Keys
    && (forall k :: k in overrides ==> r[k] == overrides[k])
    && (forall k :: k in LabelKeys && k !in overrides ==> r[k] == Str(DefaultLabel(labelName, k)))
  }

  /**
   * `create_labels`: the defaults with every caller key laid over them verbatim.
   * The result covers every default key and every caller key; a caller key wins outright.
   */
  function CreateLabels(labelName: string, overrides: Array): (r: Array)
    ensures IsLabelSet(labelName, overrides, r)
  {
    ArrayMerge(DefaultLabels(labelName), overrides)
  }

  /** `t` occurs in `s` as a contiguous piece. */
  predicate Mentions(s: string, t: string)
  {
    exists i :: 0 <= i && i + |t| <= |s| && OccursAt(s, t, i)
  }

  /** `t` occurs in `s` starting at index `i`. */
  predicate OccursAt(s: string, t: string, i: nat)
    requires i + |t| <= |s|
  {
    s[i..i + |t|] == t
  }

  lemma MentionsAt(p: string, t: string, q: string)
    ensures Mentions(p + t + q, t)
  {
    var s := p + t + q;
    assert OccursAt(s, t, |p|);
  }

  /** Every default label except `add_new` mentions the human label. */
  lemma DefaultLabelMentions(labelName: string, key: string)
    requires key != "add_new"
    ensures Mentions(DefaultLabel(labelName, key), labelName)
  {
    var text := DefaultLabel(labelName, key);
    var p, q;
    if key == "new_item" {
      p, q := "新しい", "";
    } else if key in PlainLabelKeys || key == "all_items" || key == "add_new_item" || key == "edit_item"
      || key == "view_item" || key == "search_items" || key == "not_found" {
      p := "";
      q := if key in PlainLabelKeys then ""
        else if key == "all_items" then "一覧"
        else if key == "add_new_item" then "を追加"
        else if key == "edit_item" then "を編集"
        else if key == "view_item" then "を表示"
        else if key == "search_items" then "を検索"
        else "が見つかりませんでした。";
    } else {
      p, q := "ゴミ箱の中から、", "が見つかりませんでした。";
    }
    assert text == p + labelName + q;
    MentionsAt(p, labelName, q);
  }

  /**
   * Without overrides the label set has exactly the thirteen keys; `name`,
   * `singular_name`, `menu_name` and `archives` are the label itself and
   * `add_new` is the fixed phrase.
   */
  lemma LabelsWithoutOverrides(labelName: string)
    ensures CreateLabels(labelName, map[]).Keys == LabelKeys
    ensures forall k :: k in PlainLabelKeys ==> CreateLabels(labelName, map[])[k] == Str(labelName)
    ensures CreateLabels(labelName, map[])["add_new"] == Str(AddNew)
  {
  }

  /** Without overrides every label except `add_new` is a string that mentions the human label. */
  lemma DefaultLabelsMentionLabel(labelName: string)
    ensures forall k :: k in LabelKeys - {"add_new"} ==>
      CreateLabels(labelName, map[])[k].Str? && Mentions(CreateLabels(labelName, map[])[k].s, labelName)
  {
    var r := CreateLabels(labelName, map[]);
    forall k | k in LabelKeys - {"add_new"}
      ensures r[k].Str? && Mentions(r[k].s, labelName)
    {
      DefaultLabelMentions(labelName, k);
    }
  }

  /** Feeding a finished label set back in as overrides changes nothing. */
  lemma LabelsFixedPoint(labelName: string, overrides: Array)
    ensures CreateLabels(labelName, CreateLabels(labelName, overrides)) == CreateLabels(labelName, overrides)
  {
  }

  // ---------------------------------------------------------------------------
  // Options
  // ---------------------------------------------------------------------------

  /** The nine keys of the default option set. */
  const OptionKeys: set<string> :=
    {"public", "show_ui", "show_in_rest", "show_in_admin_bar", "menu_position",
     "show_in_nav_menus", "has_archive", "rewrite", "supports"}

  /** The features a post type supports by default, in order. */
  const DefaultSupports: seq<Value> :=
    [Str("title"), Str("author"), Str("editor"), Str("excerpt"), Str("revisions"),
     Str("thumbnail"), Str("custom-fields")]

  /** The default rewrite rule: the raw slug, no front prefix, no directory walking. */
  function DefaultRewrite(slug: string): Value
  {
    Dict(map["with_front" := Bool(false), "slug" := Str(slug), "walk_dirs" := Bool(false)])
  }

  /** The default value of one option key. */
  function DefaultOption(slug: string, key: string): Value
  {
    if key == "menu_position" then Null
    else if key == "rewrite" then DefaultRewrite(slug)
    else if key == "supports" then List(DefaultSupports)
    else Bool(true)  // public, show_ui, show_in_rest, show_in_admin_bar, show_in_nav_menus, has_archive
  }

  /** The default option set. */
  function DefaultOptions(slug: string): Array
  {
    map k | k in OptionKeys :: DefaultOption(slug, k)
  }

  /**
   * What the code needs of a `rewrite` entry: either an array or a value that is
   * empty. A non-empty scalar would be indexed as an array and make PHP fail.
   */
  predicate RewriteIsArrayOrEmpty(a: Array)
  {
    "rewrite" in a ==> a["rewrite"].Dict? || IsEmpty(a["rewrite"])
  }

  /**
   * How a non-empty rewrite array `before` ends up as `after`: `walk_dirs` is
   * always present, an absent or empty one becomes `false`, a non-empty one is
   * kept, and every other key is untouched.
   */
  predicate WalkDirsNormalised(before: Array, after: Array)
  {
    && after.Keys == before.Keys + {"walk_dirs"}
    && (forall k :: k in before && k != "walk_dirs" ==> after[k] == before[k])
    && after["walk_dirs"] == (if IsEmptyAt(before, "walk_dirs") then Bool(false) else before["walk_dirs"])
  }

  /** The caller's `rewrite` value `given` becomes `final`: kept as is when empty, normalised otherwise. */
  predicate RewriteNormalised(given: Value, final: Value)
  {
    if IsEmpty(given) then final == given
    else given.Dict? && final.Dict? && WalkDirsNormalised(given.entries, final.entries)
  }

  /**
   * The in-place fix-up of the merged `rewrite` entry: a non-empty rewrite
   * array whose `walk_dirs` is absent or empty gets `walk_dirs => false`.
   */
  function NormaliseRewrite(rewrite: Value): (r: Value)
    requires rewrite.Dict? || IsEmpty(rewrite)
    ensures RewriteNormalised(rewrite, r)
    ensures IsEmpty(r) == IsEmpty(rewrite)
    ensures r.Dict? || IsEmpty(r)
    ensures !IsEmpty(r) ==> "walk_dirs" in r.entries
  {
    if !IsEmpty(rewrite) && IsEmptyAt(rewrite.entries, "walk_dirs") then
      Dict(rewrite.entries["walk_dirs" := Bool(false)])
    else
      rewrite
  }

  /**
   * `r` is the option set for `slug` under `overrides`: it covers every default
   * key and every caller key; a caller key other than `rewrite` wins outright; a
   * default key the caller leaves out keeps its default; a caller `rewrite` is
   * taken whole and then normalised; and the final rewrite entry is an array
   * holding `walk_dirs` or an empty value.
   */
  predicate IsOptionSet(slug: string, overrides: Array, r: Array)
  {
    && r.Keys == OptionKeys + overrides.Keys
    && (forall k :: k in overrides && k != "rewrite" ==> r[k] == overrides[k])
    && (forall k :: k in OptionKeys && k !in overrides ==> r[k] == DefaultOption(slug, k))
    && ("rewrite" in overrides ==> RewriteNormalised(overrides["rewrite"], r["rewrite"]))
    && RewriteIsArrayOrEmpty(r)
    && (!IsEmpty(r["rewrite"]) ==> "walk_dirs" in r["rewrite"].entries)
  }

  /**
   * `create_options`: the defaults, shallowly overridden by the caller (a caller
   * `rewrite` replaces the whole default rewrite array), then `walk_dirs`
   * normalised in a non-empty rewrite array.
   */
  function CreateOptions(slug: string, overrides: Array): (r: Array)
    requires RewriteIsArrayOrEmpty(overrides)
    ensures IsOptionSet(slug, overrides, r)
  {
    var merged := ArrayMerge(DefaultOptions(slug), overrides);
    MergedRewrite(slug, overrides);
    var r := merged["rewrite" := NormaliseRewrite(merged["rewrite"])];
    NormalisedMergeEntries(slug, overrides, merged, r);
    NormalisedMergeRewrite(slug, overrides, merged, r);
    r
  }

  /** The merged `rewrite` entry: the caller's when given, the default rule otherwise. */
  lemma MergedRewrite(slug: string, overrides: Array)
    requires RewriteIsArrayOrEmpty(overrides)
    ensures var merged := ArrayMerge(DefaultOptions(slug), overrides);
      && "rewrite" in merged
      && ("rewrite" in overrides ==> merged["rewrite"] == overrides["rewrite"])
      && ("rewrite" !in overrides ==> merged["rewrite"] == DefaultRewrite(slug))
      && (merged["rewrite"].Dict? || IsEmpty(merged["rewrite"]))
  {
  }

  /** The keys of the normalised merge, and the entries normalisation leaves alone. */
  lemma NormalisedMergeEntries(slug: string, overrides: Array, merged: Array, r: Array)
    requires merged == ArrayMerge(DefaultOptions(slug), overrides)
    requires "rewrite" in merged && (merged["rewrite"].Dict? || IsEmpty(merged["rewrite"]))
    requires "rewrite" !in overrides ==> merged["rewrite"] == DefaultRewrite(slug)
    requires r == merged["rewrite" := NormaliseRewrite(merged["rewrite"])]
    ensures r.Keys == OptionKeys + overrides.Keys
    ensures forall k :: k in overrides && k != "rewrite" ==> r[k] == overrides[k]
    ensures forall k :: k in OptionKeys && k !in overrides ==> r[k] == DefaultOption(slug, k)
  {
  }

  /** The `rewrite` entry of the normalised merge. */
  lemma NormalisedMergeRewrite(slug: string, overrides: Array, merged: Array, r: Array)
    requires "rewrite" in merged && (merged["rewrite"].Dict? || IsEmpty(merged["rewrite"]))
    requires "rewrite" in overrides ==> merged["rewrite"] == overrides["rewrite"]
    requires r == merged["rewrite" := NormaliseRewrite(merged["rewrite"])]
    ensures "rewrite" in overrides ==> RewriteNormalised(overrides["rewrite"], r["rewrite"])
    ensures RewriteIsArrayOrEmpty(r)
    ensures !IsEmpty(r["rewrite"]) ==> "walk_dirs" in r["rewrite"].entries
  {
  }

  /**
   * With overrides that name none of the default keys, every default survives:
   * the visibility flags and `has_archive` are true, `menu_position` is null,
   * the rewrite rule uses the raw slug and `supports` is the seven features in order.
   */
  lemma OptionDefaultsSurvive(slug: string, overrides: Array)
    requires overrides.Keys !! OptionKeys
    ensures var r := CreateOptions(slug, overrides);
      && (forall k :: k in {"public", "show_ui", "show_in_rest", "show_in_admin_bar", "show_in_nav_menus", "has_archive"} ==>
            r[k] == Bool(true))
      && r["menu_position"] == Null
      && r["rewrite"] == Dict(map["with_front" := Bool(false), "slug" := Str(slug), "walk_dirs" := Bool(false)])
      && r["supports"] == List([Str("title"), Str("author"), Str("editor"), Str("excerpt"),
                                Str("revisions"), Str("thumbnail"), Str("custom-fields")])
  {
  }

  /**
   * A caller `rewrite` array replaces the default one rather than being patched:
   * a default key the caller leaves out (the slug, say) is gone from the result.
   */
  lemma RewriteReplacedWholesale(slug: string, overrides: Array, key: string)
    requires "rewrite" in overrides && overrides["rewrite"].Dict? && !IsEmpty(overrides["rewrite"])
    requires key !in overrides["rewrite"].entries && key != "walk_dirs"
    ensures RewriteIsArrayOrEmpty(overrides)
    ensures key !in CreateOptions(slug, overrides)["rewrite"].entries
  {
  }

  /** Feeding a finished option set back in as overrides changes nothing. */
  lemma OptionsFixedPoint(slug: string, overrides: Array)
    requires RewriteIsArrayOrEmpty(overrides)
    ensures CreateOptions(slug, CreateOptions(slug, overrides)) == CreateOptions(slug, overrides)
  {
    var r := CreateOptions(slug, overrides);
    var rr := CreateOptions(slug, r);
    RewriteFixedPoint(slug, overrides);
    assert rr.Keys == r.Keys;
    forall k | k in r ensures rr[k] == r[k] { }
  }

  /** A finished rewrite entry passes through a second normalisation unchanged. */
  lemma RewriteFixedPoint(slug: string, overrides: Array)
    requires RewriteIsArrayOrEmpty(overrides)
    ensures var r := CreateOptions(slug, overrides);
      CreateOptions(slug, r)["rewrite"] == r["rewrite"]
  {
  }

  /**
   * Normalisation is idempotent: a rewrite value that is empty, or an array
   * whose `walk_dirs` is present and, when empty, already `false`, is left as is.
   */
  lemma NormaliseRewriteIdempotent(rewrite: Value)
    requires rewrite.Dict? || IsEmpty(rewrite)
    requires !IsEmpty(rewrite) ==> "walk_dirs" in rewrite.entries
    requires !IsEmpty(rewrite) && IsEmpty(rewrite.entries["walk_dirs"]) ==> rewrite.entries["walk_dirs"] == Bool(false)
    ensures NormaliseRewrite(rewrite) == rewrite
  {
  }

  /** After normalisation an empty `walk_dirs` can only be `false`. */
  lemma WalkDirsEmptyIsFalse(slug: string, overrides: Array)
    requires RewriteIsArrayOrEmpty(overrides)
    ensures var r := CreateOptions(slug, overrides);
      !IsEmpty(r["rewrite"]) && IsEmpty(r["rewrite"].entries["walk_dirs"]) ==>
        r["rewrite"].entries["walk_dirs"] == Bool(false)
  {
  }

  // ---------------------------------------------------------------------------
  // Registration
  // ---------------------------------------------------------------------------

  /**
   * The arguments handed to the host's registration call: the stored options
   * with `labels` set to the stored label set, whatever `labels` the options held.
   */
  function RegistrationArgs(options: Array, labels: Array): (r: Array)
    ensures r.Keys == options.Keys + {"labels"}
    ensures r["labels"] == Dict(labels)
    ensures forall k :: k in options && k != "labels" ==> r[k] == options[k]
  {
    options["labels" := Dict(labels)]
  }
}
