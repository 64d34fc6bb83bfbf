/** How a row written by the generator reads back on the history and
    dashboard pages: the database returns the row under its own column names,
    so a field the pages read under another name is absent. */
module SavedRecords {
  import opened Wrappers
  import opened Records
  import opened Text
  import opened WizardForm
  import ModelGenerator
  import GenerationHistory

  /** The record the list call returns for a saved row, given the id and the
      creation month the database assigns. Only the columns the pages read are
      kept: the style under `fashion_style`, the flag under `is_favorite`.
      The row holds the custom prompt under `custom_background`, a column the
      pages never read, so both prompt spellings they read are absent. */
  function Loaded(id: string, row: ModelGenerator.GenerationRow, created: Option<YearMonth>): (g: Generation)
  {
    Generation(id, row.gender, row.ethnicity, row.fashion_style, "", row.background,
               "", "", Num(row.is_favorite), Undefined, created)
  }

  /** A freshly saved generation reads back with the wizard's selections and
      is not a favourite; its custom prompt plays no part in the search, so a
      query found only in that prompt does not find it. */
  lemma SavedPromptNotSearched(id: string, userId: string, form: FormData, referenceUrls: seq<string>,
                               imageUrls: seq<string>, created: Option<YearMonth>, query: string)
    ensures var g := Loaded(id, ModelGenerator.SavedRow(userId, form, referenceUrls, imageUrls), created);
      && g.gender == form.gender && g.ethnicity == form.ethnicity && g.background == form.background
      && FirstNonEmpty(g.fashion_style, g.fashionStyle) == form.fashionStyle
      && !IsFavorite(g)
      && FirstNonEmpty(g.custom_prompt, g.customPrompt) == ""
    ensures var g := Loaded(id, ModelGenerator.SavedRow(userId, form, referenceUrls, imageUrls), created);
      var q := Lower(query);
      && !OccursIn(q, Lower(form.gender)) && !OccursIn(q, Lower(form.ethnicity))
      && !OccursIn(q, Lower(form.fashionStyle)) && !OccursIn(q, Lower(form.background))
      ==> !GenerationHistory.Matches(g, query)
  {
    var g := Loaded(id, ModelGenerator.SavedRow(userId, form, referenceUrls, imageUrls), created);
    GenerationHistory.MatchesByOccurrence(g, query);
  }
}
