/**
 * The tool descriptor of types.ts: every entry of the tool catalog carries
 * an id (unique), a display name, a description, a category and an icon.
 */
module Types {
  datatype ToolCategory =
    | Image | Seo | Text | Dev | Math | Unit
    | Security | Social | Misc | Pdf | Video

  datatype Tool = Tool(
    id: string,
    name: string,
    description: string,
    category: ToolCategory,
    icon: string)
}
