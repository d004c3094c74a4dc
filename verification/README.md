# django-flowplayer `flowplayer` tag, modelled in Dafny

The repository provides one Django template tag, `{% flowplayer media [class] [id] %}`, which embeds a Flash video player in a page. This project models what the tag decides before any markup is produced:

- **Parsing the tag** (`do_flowplayer`): the tag's words are read by their count alone.
- **Building the node** (`FlowPlayerNode.__init__`): the player's own url is chosen once, when the template is compiled.
- **Rendering the node** (`FlowPlayerNode.render`): one render
  - merges the player options from the `FLOWPLAYER_CONFIG` setting,
  - advances a per-page counter kept in the render context,
  - resolves the media and id references,
  - classifies the media into the url and playlist for the player's sub-template,
  - composes the player id.

Modules, one per part of the tag:

- `Wrappers`: `Option` and `Result`.
- `Decimal`: Python's `str()` of an integer, with a reading back of the digits.
- `Values`: the Python values the tag handles and the exceptions it raises. Template variable resolution is a function parameter (`Resolver`) that returns `None` where Django raises.
- `Config`: option dictionaries and the settings.
  - `OptionMap` is a class, because the tag updates the dictionary stored under `"default"` in place.
  - `Settings` is a class holding `FLOWPLAYER_URL`, `MEDIA_URL` and `FLOWPLAYER_CONFIG`.
  - `EffectiveConfig` is the options a player gets, as a value.
- `RenderContext`: the render context (a class whose bindings the tag updates) and the counter step on it.
- `PlayerNode`: the node class and the render.
  - `Render` does, step by step and in the source's order, what lines 36-80 do to the node's attributes, the context and the stored defaults.
  - Its result is proved equal to the reference function `Rendered`.
- `TagParser`: `do_flowplayer`.
- `Scenarios`: two tags rendered on one concrete page, through parsing, configuration and rendering.

## Behaviour worth knowing

What the code does, set against its own comments and docstrings (file `flowplayer/templatetags/flowplayer_tags.py`):

- **Four words.** A tag with exactly four words gets an id reference but **no** player class, because line 116 tests for exactly three words. The constructor's docstring (lines 19-24) presents the class as a parameter every node has. No tag gets both a class and an id; `TagParser.ParseTag` states this.
- **Lists do not become playlists.** The docstring at line 107 says "Pass a dict of urls to the player to get a playlisted player instance", and the comment at line 64 asks "array or a string?". But the `else` at line 73 belongs to the query-set test at line 69, not to the list test at line 65. So a list of url dictionaries ends with the whole list as `media_url` and playlist `False`. Only a query set yields a playlist (`PlayerNode.Classification`). The list branch still runs first:
  - an empty list raises `IndexError`;
  - a first item without `"url"` raises `KeyError`.
- **Rendering changes the settings.** The comment at lines 37-38 says the configuration is imported from the settings. When `FLOWPLAYER_CONFIG` has a `"default"` entry, line 40 takes that dictionary itself, and line 45 updates it in place. After a render with class `c`, the stored defaults hold `c`'s options. Every later player whose class the setting does not name gets them too (`Scenarios.DefaultsKeepEarlierClass`, `Scenarios.TwoPlayersOnOnePage`). With no `"default"` entry a fresh dictionary is used, and nothing stored changes.
- **Ids are not always unique.** Line 6 says the counter is there "to ensure unique" ids. That holds only in part:
  - Formatting at line 80 keeps counters apart only for equal extra ids. The same extra id after different counters always gives different ids (`PlayerNode.PlayerIdsDistinct`).
  - Different extra ids can collide: counter 1 with extra id `"1x"` and counter 11 with extra id `"x"` both give `"11x"` (`PlayerNode.PlayerIdsMayCollide`).
  - The counter itself is sequential only within one scope of the render context. Line 47 finds the counter in any scope, but line 48 writes it into the innermost one. So a counter advanced inside a `{% for %}`, `{% with %}`, `{% block %}` or `{% include %}` scope is lost when that scope ends, and later tags repeat earlier ids. For example, `{% flowplayer a.flv %}{% for v in vs %}{% flowplayer v %}{% endfor %}{% flowplayer b.flv %}` gives "0", "1", "2", … inside the loop and then "1" again. Two tags in separate `{% block %}`s both get "0". The model's context is a single scope (see "Left out"). So `RenderContext.NthRenderSeesPredecessor` and `PlayerNode.NthPlayerId` describe tags rendered in one scope.
- **The counter moves before anything can fail.** The counter step runs before resolution and classification, so a render that then raises has still advanced it. The configuration update at lines 39-45 comes before the counter, so it has happened even when the counter step itself raises.

## Model

| member | source | states |
|---|---|---|
| `TagParser.ParseTag` | flowplayer/templatetags/flowplayer_tags.py:111-126 | fewer than two words is exactly the syntax-error case, with the source's message; otherwise media is the second word, a class exactly for three words (the third), an id reference exactly for four words (the fourth), never both |
| `TagParser.ExtraWordsIgnored` | flowplayer/templatetags/flowplayer_tags.py:116-126 | a tag of five or more words parses as its first two words alone |
| `TagParser.DoFlowplayer` | flowplayer/templatetags/flowplayer_tags.py:89-128 | fails exactly when parsing fails, with the same error; otherwise returns a new node holding the parsed references and the player url chosen from the settings |
| `PlayerNode.PlayerUrl` | flowplayer/templatetags/flowplayer_tags.py:31-34 | a non-empty `FLOWPLAYER_URL` is the player url; otherwise it is `MEDIA_URL` followed by `flowplayer/FlowPlayerLight.swf` |
| `PlayerNode.FlowPlayerNode.constructor` | flowplayer/templatetags/flowplayer_tags.py:15-34 | the node keeps the media reference, class and id reference (none when not given) and the player url from the settings; no render attribute is set yet |
| `Config.Merged` | flowplayer/templatetags/flowplayer_tags.py:45 | `dict.update` on values: the keys are those of both; every key of the overlay has the overlay's value; the other keys keep the base's value |
| `Config.MergedIdempotent` | flowplayer/templatetags/flowplayer_tags.py:44-45 | overlaying the same options a second time changes nothing |
| `Config.EffectiveConfig` | flowplayer/templatetags/flowplayer_tags.py:39-45 | every key of the class's options has the class's value; a default key the class does not override keeps the default value; no other key appears; with no "default" entry the result is the class's options; with no class entry it is the defaults, or empty |
| `Config.OptionMap.Update` | flowplayer/templatetags/flowplayer_tags.py:45 | the dictionary's new options are the old ones overlaid by the source's old options, including when the source is the same dictionary |
| `PlayerNode.FlowPlayerNode.LoadConfig` | flowplayer/templatetags/flowplayer_tags.py:39-45 | the player's options are the effective ones; when "default" exists they live in that very stored dictionary; otherwise in a new one; no other stored dictionary changes |
| `Scenarios.ClipOverridesDefaults` | flowplayer/templatetags/flowplayer_tags.py:39-45 | defaults `{autoplay: false}` overlaid by clip options `{autoplay: true, loop: true}` give the clip options |
| `Scenarios.DefaultsKeepEarlierClass` | flowplayer/templatetags/flowplayer_tags.py:39-45 | once a render with class `c` has updated the stored defaults, a player of a class the setting does not name gets `c`'s effective options |
| `RenderContext.CounterStep` | flowplayer/templatetags/flowplayer_tags.py:47-50 | an absent counter becomes 0; an integer counter grows by exactly 1; any other counter value raises `TypeError`; no other binding is added, removed or changed |
| `RenderContext.Context.Advance` | flowplayer/templatetags/flowplayer_tags.py:47-50 | the context's bindings become the counter step's result and the counter's new value is returned; on `TypeError` the bindings are unchanged |
| `RenderContext.NthRenderSeesPredecessor` | flowplayer/templatetags/flowplayer_tags.py:47-50 | in a context (one scope) without a counter, the n-th tag occurrence leaves the counter at n - 1 and every other binding as it was |
| `PlayerNode.ResolvedMedia` | flowplayer/templatetags/flowplayer_tags.py:52-57 | the media element is what the reference resolves to; when resolution fails it is the unresolved reference itself |
| `PlayerNode.ExtraId` | flowplayer/templatetags/flowplayer_tags.py:59-62 | the extra id is the resolved id reference; it is the empty string both when the tag has no id reference (the attribute was never set at line 28) and when resolution fails |
| `PlayerNode.FlowPlayerNode.ResolveReferences` | flowplayer/templatetags/flowplayer_tags.py:52-62 | the node's media element and extra id become the resolved media and extra id for the context's current bindings |
| `PlayerNode.Classification` | flowplayer/templatetags/flowplayer_tags.py:64-75 | raising happens exactly for an empty list or query set (`IndexError`) and for a list whose first item has no "url" (`KeyError`); a query set gives its first row's url and itself as playlist; any other value, a list included, is its own url with no playlist; a playlist appears exactly for query sets |
| `PlayerNode.FlowPlayerNode.ClassifyMedia` | flowplayer/templatetags/flowplayer_tags.py:64-75 | the if/if/else sequence, with the later assignments overwriting the list branch's, leaves url and playlist as `Classification` says, or leaves both unchanged and reports its error |
| `Decimal.NatText` | flowplayer/templatetags/flowplayer_tags.py:80 | the decimal text of a counter is non-empty, all digits, and starts with '0' only for 0 |
| `Decimal.NatTextRoundTrip` | flowplayer/templatetags/flowplayer_tags.py:80 | reading the decimal text back gives the number |
| `Decimal.IntText` | flowplayer/templatetags/flowplayer_tags.py:80 | `str()` of an integer starts with '-' exactly for negatives, and its digits read back as the number's magnitude |
| `Decimal.IntTextInjective` | flowplayer/templatetags/flowplayer_tags.py:80 | different integers have different texts |
| `Values.Text` | flowplayer/templatetags/flowplayer_tags.py:80 | `%s` of a value: a string is itself; an integer is its decimal text, whose digits read back as it when non-negative; any other object is the text its `str()` gives; an unresolved template variable is its reference; a list or query set is its Python `repr`, a parameter |
| `PlayerNode.PlayerId` | flowplayer/templatetags/flowplayer_tags.py:80 | the player id ends with the extra id; what precedes it is the counter's decimal text: all digits reading back as the counter when it is non-negative, otherwise '-' followed by digits reading back as its magnitude |
| `PlayerNode.PlayerIdsDistinct` | flowplayer/templatetags/flowplayer_tags.py:80 | two counters with the same extra id give equal ids only if the counters are equal (distinct ids also need distinct counters, which hold only within one scope) |
| `PlayerNode.PlayerIdsMayCollide` | flowplayer/templatetags/flowplayer_tags.py:80 | counter 1 with extra id "1x" and counter 11 with extra id "x" give the same id |
| `PlayerNode.NthPlayerId` | flowplayer/templatetags/flowplayer_tags.py:47-80 | whatever its class, media and id reference, the n-th tag rendered in a context (one scope) without a counter gets an id made of the digits of n - 1 followed by its extra id |
| `PlayerNode.Rendered` | flowplayer/templatetags/flowplayer_tags.py:36-80 | the outcome of one render from the old settings and bindings: a counter that is not an integer raises `TypeError`; otherwise the render raises exactly when classifying the resolved media raises, with that error; on success the values are the node's url and class, the effective options, the classified url and playlist, and the id made from the advanced counter and the extra id's text |
| `PlayerNode.FlowPlayerNode.Present` | flowplayer/templatetags/flowplayer_tags.py:52-80 | after the counter step, the render's outcome is the reference outcome for the current bindings; the media element and extra id are set; url and playlist are set on success and unchanged on error |
| `PlayerNode.FlowPlayerNode.Render` | flowplayer/templatetags/flowplayer_tags.py:36-80 | the outcome equals the reference function `Rendered` of the old configuration and bindings; the stored defaults are updated in place and no other stored dictionary changes; the counter advances unless it raises `TypeError`, and then the bindings and resolved attributes stay as they were; url and playlist are set on success and unchanged when the render raises |
| `Scenarios.FirstTagOnPage` | flowplayer/templatetags/flowplayer_tags.py:36-80 | `{% flowplayer video.flv clip %}`, first on a page where `video.flv` is not a variable, gives id "0", the clip options, the unresolved reference as url and no playlist |
| `Scenarios.SecondTagOnPage` | flowplayer/templatetags/flowplayer_tags.py:36-80 | `{% flowplayer videos plain name %}`, second on a page binding `name` to "x" and `videos` to a list, gives id "1x", no class, the defaults' options, the list itself as url and no playlist |
| `Scenarios.FirstTagRendered` | flowplayer/templatetags/flowplayer_tags.py:36-80 | rendering the first tag through the node leaves the counter at 0 and the stored defaults holding the clip options |
| `Scenarios.TwoPlayersOnOnePage` | flowplayer/templatetags/flowplayer_tags.py:36-80 | the second tag on that page renders with id "1x", no class, the list as url, no playlist, and the clip options taken from the mutated stored defaults |

## Left out

- Template loading and rendering at lines 77-86: the sub-template, its markup, and the `autoescape` flag. `Render` returns the six values the sub-template receives, not the markup.
- Splitting the tag's text into words (`token.split_contents`, with Django's quoting rules). The parser takes the words as given.
- Django's `Variable`: how it parses a reference, resolves dotted lookups and literals, and raises on a malformed one. Resolution is the `Resolver` parameter. Its failure stands for every exception the bare `except:` clauses catch.
- Python's `repr` of a list or query set, which `%s` uses when such a value is the extra id. It is the `reprOf` parameter.
- The render context's stack of scopes. The model flattens it into one map. In Django, line 47 finds the counter in any scope, but `+= 1` at line 48 writes the innermost one, so a counter advanced inside a pushed scope (`{% for %}`, `{% with %}`, `{% block %}`, `{% include %}`) is lost when that scope ends and later ids repeat. The model's sequential-counter results hold only for tags rendered in one scope.
- Counter values other than integers and the model's other values. Python would add 1 to a `bool` or `float`, and an object may define `+`. The model raises `TypeError` for every non-integer value.
- List items that are not dictionaries (Python would raise `TypeError` at line 67). List items are string-keyed dictionaries of strings.
- Query-set rows are only their `url` attribute, a string. A row without it, and the query set's laziness and database access, are not modelled.
- Settings the project does not define. `settings.FLOWPLAYER_URL` raises `AttributeError` when unset; the model assumes all three settings are defined. `FLOWPLAYER_URL` is a string or `None`.
- A `None` key in `FLOWPLAYER_CONFIG`. Classes are strings, so a tag without a class never matches a configuration entry.
- Tag registration (line 132) and the unused module global `FLOWPLAYER_ITERATOR` (line 7).
- Concurrent renders sharing one node. Python keeps the render's intermediate values as node attributes. The model keeps them too, but one render at a time.
