/** The application package's file generator: the default page template
    filled with the task and the brief, and a fixed README. No service is
    asked; the result depends on the task and the brief alone. */
module DemoGenerator {
  import opened Outcomes
  import opened Strings
  import opened Dicts
  import opened PyFormat

  // The page's markup between the substitution positions, abbreviated; the
  // literal braces of its style sheet and script are kept, so that the
  // template needs its doubled-brace escapes.
  const PageHead: string := "<!doctype html>\n<html lang=\"en\">\n<head>\n  <title>"
  const PageStyle: string :=
    " - Demo</title>\n  <style>\n    body{font-family:system-ui;padding:2rem;}\n  </style>\n</head>\n<body>\n  <h1>"
  const PageBrief: string := "</h1>\n  <p><strong>Brief:</strong> "
  const PageTail: string :=
    "</p>\n  <script>\n    (function () {\n      if (url) {\n        imageEl.src = url;\n      }\n    })();\n  </script>\n</body>\n</html>"

  /** DEFAULT_HTML_TEMPLATE as pieces: the task in the title and the
      heading, the brief in the paragraph. */
  const PageTemplate: seq<Piece> :=
    [Lit(PageHead), Field("task"), Lit(PageStyle), Field("task"), Lit(PageBrief), Field("brief"), Lit(PageTail)]

  /** The page with the task and the brief in place. */
  function DemoPage(task: string, brief: string): string {
    PageHead + task + PageStyle + task + PageBrief + brief + PageTail
  }

  /** `DEFAULT_HTML_TEMPLATE.format(task=…, brief=…)` succeeds, the doubled
      braces of the template text coming out single, and yields the page. */
  lemma TemplateFormats(task: string, brief: string)
    ensures Format(Render(PageTemplate), map["task" := task, "brief" := brief]) == Ok(DemoPage(task, brief))
  {
    var env := map["task" := task, "brief" := brief];
    SubstThreeFields(PageHead, "task", PageStyle, "task", PageBrief, "brief", PageTail, env);
    FormatRender(PageTemplate, env);
    assert env["task"] == task && env["brief"] == brief;
  }

  function DemoReadme(task: string, brief: string): string {
    "# " + task + "\n\nAuto-generated demo page.\n\nBrief: " + brief + "\n"
  }

  /** `llm_generate_files`. */
  function LlmGenerateFiles(brief: string, task: string): Dict {
    [("index.html", DemoPage(task, brief)), ("README.md", DemoReadme(task, brief))]
  }

  /** The result has exactly the two keys, in that order; the page is the
      filled template (`TemplateFormats`) and the README the fixed text with the task and the
      brief. */
  lemma GeneratedFiles(brief: string, task: string)
    ensures Keys(LlmGenerateFiles(brief, task)) == ["index.html", "README.md"]
    ensures Lookup(LlmGenerateFiles(brief, task), "index.html") == Some(DemoPage(task, brief))
    ensures Lookup(LlmGenerateFiles(brief, task), "README.md")
            == Some("# " + task + "\n\nAuto-generated demo page.\n\nBrief: " + brief + "\n")
  {
    TwoFiles(DemoPage(task, brief), DemoReadme(task, brief));
  }

  lemma TwoFiles(page: string, readme: string)
    ensures Keys([("index.html", page), ("README.md", readme)]) == ["index.html", "README.md"]
    ensures Lookup([("index.html", page), ("README.md", readme)], "index.html") == Some(page)
    ensures Lookup([("index.html", page), ("README.md", readme)], "README.md") == Some(readme)
  {
    var d := [("index.html", page), ("README.md", readme)];
    assert d[1..] == [("README.md", readme)];
    assert "index.html" != "README.md" by { assert "index.html"[0] != "README.md"[0]; }
  }
}
