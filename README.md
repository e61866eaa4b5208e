# wp-post-type, modelled in Dafny

The package registers a WordPress custom post type from a short description: a
slug (`book`) and a human-readable label (`Book`). It has two classes that do
the same thing in slightly different ways:

- `Builder` (src/Builder.php) builds a default label set and a default option
  set at construction. The caller may replace either through `set_labels` /
  `set_options`, and `create()` then registers the post type and subscribes
  the admin listing-order callback.
- `Post_Type` (src/Post_Type.php) is the older form. Its constructor takes the
  options at once, takes the label overrides from `args['labels']`, and
  registers immediately.

Both lay caller overrides over defaults with `array_merge`, normalise
`rewrite.walk_dirs`, and store the label set under `labels` just before
registering. Both also subscribe a listing-order callback. It acts only when
four guards hold: the query is the main query, the request is an admin screen,
the query var `post_type` is strictly this slug, and the post type supports
`page-attributes`. The default `supports` list does not include
`page-attributes`, so with the defaults the rule never fires. When the guards
hold, `order` is set to `ASC` and `orderby` to `menu_order`, each separately
and only when the raw request left that field empty.

The model has six modules:

- `Php` (php.dfy): PHP values (`Value`), string-keyed arrays (`Array`), `empty()` and `array_merge`.
- `Defaults` (defaults.dfy): the default label and option sets, how overrides are merged over them, the `walk_dirs` fix-up and the registration arguments. These are shared by both classes.
- `AdminOrder` (admin_order.dfy): the `pre_get_posts` ordering rule as a function on query vars.
- `WordPress` (wordpress.dfy): the host as seen from the package, including `WP_Query::get`, which reads an unset or null var as `''`.
  - `Host` records `register_post_type` and `add_action` calls in a log, and holds `is_admin()` and the post-type feature table as fixed inputs.
  - `Query` is a `WP_Query` with its raw request `query` and its writable query vars.
- `PostTypeBuilder` (builder.dfy): the `Builder` class, plus the package's own usage example.
- `LegacyPostType` (post_type.dfy): the `Post_Type` class.

The two classes keep their PHP state as fields: `labels` and `args` are
reassigned by the setters and by registration. Each method's postcondition
gives the new state as a function of the inputs and the old state, and the
lemmas in `Defaults` and `AdminOrder` prove what those functions promise.

## Model

| member | source | states |
|---|---|---|
| Defaults.CreateLabels | src/Builder.php:90-108 | The label set has exactly the thirteen default keys plus the caller's keys. A caller key wins with its value verbatim. Every other default key keeps the default text built from the label. |
| Defaults.LabelsWithoutOverrides | src/Builder.php:91-105 | Without overrides there are exactly thirteen keys. `name`, `singular_name`, `menu_name` and `archives` are the label itself, and `add_new` is the fixed phrase 新規追加. |
| Defaults.DefaultLabelMentions | src/Builder.php:94-102 | Each default label other than `add_new` is the label with a fixed phrase before or after it, so it contains the label. |
| Defaults.DefaultLabelsMentionLabel | src/Builder.php:91-107 | Without overrides, every label except `add_new` is a string that contains the human label. |
| Defaults.LabelsFixedPoint | src/Builder.php:90-108 | Feeding a finished label set back into `create_labels` returns it unchanged. |
| Defaults.NormaliseRewrite | src/Builder.php:153-155 | The `walk_dirs` fix-up. An empty rewrite value is kept as is. A non-empty rewrite array always ends up with `walk_dirs`: `false` when it was absent or empty, the caller's value otherwise, and every other key untouched. |
| Defaults.NormaliseRewriteIdempotent | src/Builder.php:153-155 | Applying the fix-up to a value it already produced changes nothing. |
| Defaults.CreateOptions | src/Builder.php:126-158 | The option set's keys are the nine defaults plus the caller's. A caller key other than `rewrite` wins outright. A default the caller omits keeps its default. A caller `rewrite` is taken whole and then normalised. The final `rewrite` is an array holding `walk_dirs`, or an empty value. |
| Defaults.OptionDefaultsSurvive | src/Builder.php:127-149 | With overrides that name no default key, the visibility flags and `has_archive` are true and `menu_position` is null. `rewrite` is `{with_front: false, slug: <slug>, walk_dirs: false}` and `supports` is the seven features in order. |
| Defaults.RewriteReplacedWholesale | src/Builder.php:135-151 | A caller `rewrite` array replaces the default one: a default sub-key the caller leaves out (such as `slug`) is absent from the result. |
| Defaults.WalkDirsEmptyIsFalse | src/Builder.php:153-155 | In a finished option set, a non-empty `rewrite` whose `walk_dirs` is empty has `walk_dirs` exactly `false`. |
| Defaults.RewriteFixedPoint | src/Builder.php:151-155 | Running `create_options` again on a finished option set leaves its `rewrite` entry unchanged. |
| Defaults.OptionsFixedPoint | src/Builder.php:126-158 | Feeding a finished option set back into `create_options` returns it unchanged. |
| Defaults.RegistrationArgs | src/Builder.php:164 | The registered arguments are the stored options with `labels` set to the stored label set, replacing any caller `labels`. Every other key is unchanged. |
| AdminOrder.OrderedVars | src/Builder.php:174-188 | Nothing changes unless all four guards hold: main query, admin screen, query var `post_type` strictly equal to the slug, and page attributes supported. Then `order` becomes `ASC` and `orderby` becomes `menu_order`, each only when the raw request left it empty. No other query var is touched. |
| AdminOrder.NullPostTypeReadsAsUnset | src/Builder.php:176 | A `post_type` query var that holds null reads as `''`, as if it were unset, so the guard holds exactly when the slug is empty and the other three guards hold. |
| AdminOrder.ExplicitOrderKept | src/Builder.php:178-184 | An `order` or `orderby` that the request states explicitly is never overwritten. |
| AdminOrder.OrderedVarsIdempotent | src/Builder.php:174-188 | Running the ordering rule a second time changes nothing. |
| PostTypeBuilder.Builder.constructor | src/Builder.php:50-55 | A new builder holds the default label set for its label and the default option set for its slug. |
| PostTypeBuilder.Builder.Create | src/Builder.php:60-63 | `create()` leaves `labels` alone and sets `args` to the registration arguments. The host receives exactly one `register_post_type(name, args)`, then one `add_action('pre_get_posts', …)` for this builder. |
| PostTypeBuilder.Builder.SetLabels | src/Builder.php:79-81 | `labels` becomes `create_labels(overrides)`. This depends only on the label and the argument, so a repeated call leaves the same state. |
| PostTypeBuilder.Builder.SetOptions | src/Builder.php:115-117 | `args` becomes `create_options(overrides)`. This depends only on the slug and the argument, so a repeated call leaves the same state. |
| PostTypeBuilder.Builder.RegisterPostType | src/Builder.php:163-166 | Stores the label set under `args['labels']`, then hands the slug and those arguments to the host. |
| PostTypeBuilder.Builder.PreGetPosts | src/Builder.php:174-188 | The query vars after the callback are exactly `AdminOrder.OrderedVars` of the vars before it. |
| PostTypeBuilder.RegisteredDefaults | src/Builder.php:50-63 | Caller options without `has_archive`, `rest_base` or `labels` are registered as follows: every caller key except `rewrite` survives, `has_archive` is true, the name label is the label, and there is no `rest_base` key. |
| PostTypeBuilder.BuildAndCreate | tests/Builder_Test.php:23-30 | The usage example's sequence (construct, `set_options`, `create`) hands the host the caller's options merged over the defaults, with the default label set under `labels`. |
| PostTypeBuilder.BookRegistered | tests/Builder_Test.php:22-37 | In the example's own case (`book` / `Book`, made public with a description), the host receives `public` true, the description, `has_archive` true, name label `Book`, and no `rest_base`. |
| LegacyPostType.LabelOverrides | src/Post_Type.php:55 | The label overrides are the caller's `args['labels']` when it is not empty, and no overrides otherwise. |
| LegacyPostType.PostType.constructor | src/Post_Type.php:51-59 | The label set is built from `args['labels']`, and the option set from the whole of `args`. The options are registered with `labels` replaced by the label set. The host receives one registration, then one `add_action('pre_get_posts', …)`. |
| LegacyPostType.PostType.Register | src/Post_Type.php:64-67 | Registers with the label set under `labels`, then subscribes the listing-order callback. |
| LegacyPostType.PostType.SetLabels | src/Post_Type.php:83-85 | `labels` becomes `create_labels(overrides)`, replacing the old set wholesale. |
| LegacyPostType.PostType.CreateLabels | src/Post_Type.php:95-113 | Same promise as `Defaults.CreateLabels`, for this instance's human label. |
| LegacyPostType.PostType.SetOptions | src/Post_Type.php:120-122 | `args` becomes `create_options(overrides)`, replacing the old set wholesale. |
| LegacyPostType.PostType.CreateOptions | src/Post_Type.php:131-163 | Same promise as `Defaults.CreateOptions`, for this instance's slug. |
| LegacyPostType.PostType.RegisterPostType | src/Post_Type.php:168-171 | Stores the label set under `args['labels']`, then hands the slug and those arguments to the host. |
| LegacyPostType.PostType.PreGetPosts | src/Post_Type.php:179-193 | The query vars after the callback are exactly `AdminOrder.OrderedVars` of the vars before it. |
| LegacyPostType.RegisteredLabels | src/Post_Type.php:55-58 | Whatever `labels` the caller passed, the registered `labels` is the computed label set. It holds every default key, and a non-empty caller array survives in it key by key. |

## Left out

- The WordPress host is a call log plus fixed inputs. What `register_post_type`, `add_action` and `get_post_type_object` do inside WordPress is not modelled. Neither is the later invocation of the subscribed callback by the hook system.
- `get_post_type` (src/Builder.php:70-72, src/Post_Type.php:74-76) only passes the host's post-type object through, so it is not modelled.
- `rest_base` is never derived. The usage test (tests/Builder_Test.php:36) expects `rest_base` to be `books`, but no code in either class sets `rest_base` or pluralises the slug. `PostTypeBuilder.BookRegistered` shows that the registered arguments carry no `rest_base` key; a plural REST base would have to come from elsewhere in WordPress. The `label` and `name` the test reads from the post-type object are produced by WordPress from the registered arguments.
- Arrays are string-keyed maps. `array_merge` renumbers integer keys, and PHP treats numeric strings such as `"5"` as integer keys; neither is modelled. Key order is lost, and so is the order in which WordPress would see the labels and options.
- Floating-point values and objects are not among the modelled PHP values.
- Defaults.CreateOptions: requires the `rewrite` entry to be an array or an empty value. In PHP, a non-empty scalar such as `true` or a string is indexed as an array, and the code then fails with an error or writes into a string.
- LegacyPostType.PostType.constructor: requires `args['labels']`, when not empty, to be an array. Any other non-empty value makes `array_merge` in `create_labels` fail.
- `is_admin()`, `is_main_query()` and `post_type_supports()` are fixed inputs of the host and the query. Registration does not add the `supports` features to the host's feature table.
