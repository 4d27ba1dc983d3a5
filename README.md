# rapport template registry, modelled in Dafny

rapport renders its reports through jinja2 templates. `rapport/template.py`
holds the small core around that: the `firstline` text filter, the
per-type template search path (`plugin`, `email`, `web`), the template file
name `<name>.<format>.jinja2`, and the process-wide `_JINJA2_ENV` cache of
per-type rendering environments. `get_template` fills that cache on first
use and then looks the template up. If the template is missing, it prints a
diagnostic and returns `None`.

The model is the module `Template` (`template.dfy`), with `Option` in
`wrappers.dfy`:

- `FirstLine` is `re.sub("\n.*", '', s)` written as the regex scan itself.
  Each `'\n'` is deleted together with the greedy run of non-newline
  characters after it, and every other character is kept. The lemmas prove
  that this keeps exactly the text before the first newline, plus the
  properties that follow from that.
- `TemplateDirs`, `TemplateName` and `MissingMessage` are the path, file-name
  and diagnostic builders. A path is a sequence of components.
- `TemplateCache` is the `_JINJA2_ENV` dictionary as a class with a
  `map<string, Env>` field. `Init` is the loop of `init()`. `GetTemplate`
  initialises the cache only when it is empty, then looks the template up.
  A ghost counter `initRuns` records how often `init` has run. Each run
  builds new environment objects, so a rerun could be observed even when the
  rebuilt entries are equal to the old ones.
  It returns a handle, `None` together with the text written to the error
  stream, or the `KeyError` that `_JINJA2_ENV[type]` raises for an unknown
  type (the source does not catch it).
- jinja2's loader is the parameter `resolves`, an abstract oracle that says
  whether a file name resolves through a search path.
- `USER_CONFIG_DIR` comes from `rapport/config.py`, which is not part of this
  model. It is a constructor parameter of `TemplateCache`.

## Model

| member | source | states |
|---|---|---|
| `Template.LineLength` | rapport/template.py:47 | the greedy `.*` match at the start of `s`: its length is the index of the first `'\n'` of `s`, or `|s|` when there is none |
| `Template.FirstLine` | rapport/template.py:46-47 | the result of the substitution is a prefix of `s` and contains no `'\n'`; when `s` starts with a newline, the result is empty |
| `Template.FirstLineIsTextBeforeNewline` | rapport/template.py:47 | the substitution keeps exactly `s[..i]`, where `i` is the index of the first newline, or `|s|` if there is none |
| `Template.FirstLineWithoutNewline` | rapport/template.py:47 | a string without a newline is returned unchanged |
| `Template.FirstLineStopsAtNewline` | rapport/template.py:47 | when `s` has a newline, the result is shorter than `s`, the character of `s` at index `|result|` is `'\n'`, and no earlier character of `s` is a newline |
| `Template.FirstLineIdempotent` | rapport/template.py:47 | applying the filter twice gives the same result as applying it once |
| `Template.FirstLineExamples` | rapport/template.py:46-47 | `"a\nb\nc"` gives `"a"`, and `"a"` gives `"a"` |
| `Template.TemplateDirs` | rapport/template.py:26-33 | exactly two directories, in order: `USER_CONFIG_DIR/templates/<type>` first, then `rapport/templates/<type>` |
| `Template.TemplateDirsDisjoint` | rapport/template.py:26-33 | the search paths of two different types share no directory |
| `Template.TemplateName` | rapport/template.py:72 | the file name is `name`, then `.`, then `format`, then `.jinja2` |
| `Template.TemplateNameInjective` | rapport/template.py:72 | for names without a dot, two requests that give the same file name have the same name and format |
| `Template.MissingMessage` | rapport/template.py:76 | the diagnostic is `Missing template ` followed by the type, `/`, the file name and `!` |
| `Template.MissingMessageIdentifies` | rapport/template.py:75-76 | for types without `/`, the diagnostic determines both the type and the file name |
| `Template.MakeEnv` | rapport/template.py:55-65 | a type's environment searches `TemplateDirs(type)` and registers exactly the filters `firstline`, `json`, `sub` and `subn`, each bound to its function |
| `Template.InitialEnvs` | rapport/template.py:53-66 | the cache that `init` builds has exactly the keys `plugin`, `email` and `web`, each holding that type's environment |
| `Template.TemplateCache.constructor` | rapport/template.py:36 | the cache starts empty, and `init` has not run on it yet |
| `Template.TemplateCache.Init` | rapport/template.py:53-66 | the new cache is the old one with the three type entries written over it; from an empty or already initialised cache, the result is the initialised cache; each call counts as one more run of `init` |
| `Template.TemplateCache.GetTemplate` | rapport/template.py:69-76 | runs `init` exactly once when the cache is empty and not at all otherwise, leaving a populated cache unchanged; the defaults are format `text` and type `plugin`; an unknown type raises `KeyError` with nothing printed; a file name that resolves through the type's search path gives a handle to it; otherwise the result is `None` and the error stream gets `Missing template <type>/<file>!` and a newline |
| `Template.RepeatedLookup` | rapport/template.py:69-71 | with the file system unchanged between the calls, two identical requests give the same outcome; the cache ends up initialised, and `init` runs at most once over both calls (only the first call runs it, and only from an empty cache) |

## Left out

- `sub_filter` (rapport/template.py:38-40) is a direct call to Python's regex engine, which this model does not include. Only its registration under `sub` is modelled.
- `subn_filter` (rapport/template.py:42-44) calls `re.gsub`, which the `re` module does not define, so every call would fail with `AttributeError`. It has no result to model. Only its registration under `subn` is modelled.
- `json_filter` (rapport/template.py:50-51) wraps `json.dumps`. Only its registration under `json` is modelled.
- jinja2 itself is not modelled: the loader's search order, template parsing and rendering, the i18n and loopcontrols extensions, null translations, the `%%`/`##` line prefixes and `trim_blocks`. Template lookup is the oracle `resolves`. As a result, the precedence of the user directory over the local tree is captured only as the order of the search path.
- `GetTemplate` models only one failure of `_JINJA2_ENV[type].get_template(...)` (rapport/template.py:74), the `TemplateNotFound` that is caught. Other exceptions, such as a template syntax error or an unreadable file, propagate to the caller, and `Outcome` has no case for them.
- `RepeatedLookup` assumes the file system does not change between the two calls: both calls get the same `resolves`. jinja2's loader reads the disk on every `get_template`, so a template added or removed in between would change the second result.
- `os.path.expanduser` and the operating system's `os.path.join` are not modelled. Paths are component sequences, and `USER_CONFIG_DIR` is taken as given.
- The error stream is modelled as the `stderr` out-parameter of `GetTemplate`, not as real output.
- The unsynchronised check-then-init on the global dictionary is not modelled, because concurrency is out of scope.
- Each environment is a value. `init` mutates a fresh environment's `filters` dictionary before storing it, and no other code holds a reference to it, so there is no aliasing to capture.
- `_get_template_dirs`'s default `type="plugin"` is not modelled, because every call in the file passes a type.
